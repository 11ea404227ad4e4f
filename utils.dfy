/** The helpers of utils.py: the 12-hour clock, the table-driven
    categorizers, location-name cleaning, number extraction, the
    three-pass location search and the dataset validation. */
module Utils {
  import opened Text
  import opened Seqs
  import opened Config

  datatype Option<T> = None | Some(value: T)

  // ---- format_time --------------------------------------------------------

  /** `format_time(hour)`: the hour on a 12-hour clock. */
  function FormatTime(hour: int): String {
    if hour == 0 then "12:00 AM"
    else if hour < 12 then IntToString(hour) + ":00 AM"
    else if hour == 12 then "12:00 PM"
    else IntToString(hour - 12) + ":00 PM"
  }

  /** On the hours of a day, the clock reads `h mod 12` (12 for 0 and 12),
      followed by AM before noon and PM from noon on. */
  lemma FormatTimeOnDay(h: int)
    requires 0 <= h < 24
    ensures FormatTime(h) ==
      NatToString(if h % 12 == 0 then 12 else h % 12) + (if h < 12 then ":00 AM" else ":00 PM")
  {
    if h == 0 || h == 12 {
      assert NatToString(12) == "12";
    } else if h < 12 {
      assert h % 12 == h;
    } else {
      assert h % 12 == h - 12;
    }
  }

  /** The text says PM exactly for the hours from noon on. */
  lemma FormatTimePm(h: int)
    ensures EndsWith(FormatTime(h), "PM") <==> h >= 12
  {
    var t := FormatTime(h);
    var tail := if h < 12 then ":00 AM" else ":00 PM";
    assert t == t[..|t| - 6] + tail;
    assert t[|t| - 2] == tail[4];
  }

  /** Read a 12-hour clock text back into an hour of the day. */
  function ParseTime(s: String): Option<int> {
    var n := DigitRunLen(s, 0);
    if n == 0 then None
    else
      var v := DigitsValue(s[..n]);
      if s[n..] == ":00 AM" then Some(if v == 12 then 0 else v)
      else if s[n..] == ":00 PM" then Some(if v == 12 then 12 else v + 12)
      else None
  }

  lemma {:induction false} DigitRunOfPrefix(a: String, b: String, i: nat)
    requires AllDigits(a) && i <= |a|
    requires b == [] || !IsDigit(b[0])
    ensures DigitRunLen(a + b, i) == |a| - i
    decreases |a| - i
  {
    if i < |a| {
      DigitRunOfPrefix(a, b, i + 1);
    }
  }

  /** Reading a clock text: the digits, then the half of the day. */
  lemma ParseClock(d: String, am: bool)
    requires d != [] && AllDigits(d)
    ensures var v := DigitsValue(d);
      ParseTime(d + (if am then ":00 AM" else ":00 PM")) ==
        Some(if am then (if v == 12 then 0 else v) else (if v == 12 then 12 else v + 12))
  {
    var suffix := if am then ":00 AM" else ":00 PM";
    var s := d + suffix;
    DigitRunOfPrefix(d, suffix, 0);
    assert s[..|d|] == d;
    assert s[|d|..] == suffix;
  }

  /** `format_time` is undone by `ParseTime` on every hour of the day. */
  lemma FormatTimeRoundTrip(h: int)
    requires 0 <= h < 24
    ensures ParseTime(FormatTime(h)) == Some(h)
  {
    if h == 0 || h == 12 {
      assert NatToString(12) == "12";
      assert FormatTime(h) == NatToString(12) + (if h < 12 then ":00 AM" else ":00 PM");
      ParseClock(NatToString(12), h < 12);
      NatToStringRoundTrip(12);
    } else if h < 12 {
      assert FormatTime(h) == NatToString(h) + ":00 AM";
      ParseClock(NatToString(h), true);
      NatToStringRoundTrip(h);
    } else {
      assert FormatTime(h) == NatToString(h - 12) + ":00 PM";
      ParseClock(NatToString(h - 12), false);
      NatToStringRoundTrip(h - 12);
    }
  }

  /** Different hours of the day are formatted differently. */
  lemma FormatTimeInjective(h1: int, h2: int)
    requires 0 <= h1 < 24 && 0 <= h2 < 24
    requires FormatTime(h1) == FormatTime(h2)
    ensures h1 == h2
  {
    FormatTimeRoundTrip(h1);
    FormatTimeRoundTrip(h2);
  }

  // ---- table-driven categorizers -------------------------------------------

  /** `category.replace('_', ' ').title()` */
  function DisplayName(name: String): String {
    Title(ReplaceChar(name, '_', ' '))
  }

  /** The first range of `table` that contains `h`. */
  function FirstHourRange(table: seq<HourRange>, h: int): (r: Option<HourRange>)
    ensures r.Some? ==> r.value in table && r.value.start <= h < r.value.end
    ensures r.None? <==> HourHits(table, h) == 0
  {
    if table == [] then None
    else if table[0].start <= h < table[0].end then Some(table[0])
    else FirstHourRange(table[1..], h)
  }

  /** `get_time_category(hour)` */
  function GetTimeCategory(hour: int): String {
    match FirstHourRange(TimeCategories, hour)
    case Some(r) => DisplayName(r.name)
    case None => "Unknown"
  }

  /** Every hour of the day falls in exactly one time category, which names
      it; anything else is "Unknown". */
  lemma TimeCategoryTotal(h: int)
    ensures 0 <= h < 24 <==> FirstHourRange(TimeCategories, h).Some?
    ensures 0 <= h < 24 ==> GetTimeCategory(h) == DisplayName(FirstHourRange(TimeCategories, h).value.name)
    ensures !(0 <= h < 24) ==> GetTimeCategory(h) == "Unknown"
  {
    TimeCategoriesTileDay(h);
  }

  /** The names the time table gives, hour by hour. */
  lemma TimeCategoryNames(h: int)
    ensures 0 <= h < 6 ==> GetTimeCategory(h) == "Early Morning"
    ensures 6 <= h < 12 ==> GetTimeCategory(h) == "Morning"
    ensures 12 <= h < 17 ==> GetTimeCategory(h) == "Afternoon"
    ensures 17 <= h < 21 ==> GetTimeCategory(h) == "Evening"
    ensures 21 <= h < 24 ==> GetTimeCategory(h) == "Night"
  {
    assert HalfOpenChain(TimeCategories, 0, 24);
    if 0 <= h < 6 {
      FirstHourRangeOfChain(TimeCategories, 0, 24, h, 0);
      ShownEarlyMorning();
    } else if 6 <= h < 12 {
      FirstHourRangeOfChain(TimeCategories, 0, 24, h, 1);
      ShownMorning();
    } else if 12 <= h < 17 {
      FirstHourRangeOfChain(TimeCategories, 0, 24, h, 2);
      ShownAfternoon();
    } else if 17 <= h < 21 {
      FirstHourRangeOfChain(TimeCategories, 0, 24, h, 3);
      ShownEvening();
    } else if 21 <= h < 24 {
      FirstHourRangeOfChain(TimeCategories, 0, 24, h, 4);
      ShownNight();
    }
  }

  /** In a chained table the range containing `h` is the first one found. */
  lemma {:induction false} FirstHourRangeOfChain(table: seq<HourRange>, lo: int, hi: int, h: int, k: nat)
    requires HalfOpenChain(table, lo, hi) && k < |table| && table[k].start <= h < table[k].end
    ensures FirstHourRange(table, h) == Some(table[k])
    decreases |table|
  {
    if k > 0 {
      HalfOpenChainStarts(table[1..], table[0].end, hi, k - 1);
      FirstHourRangeOfChain(table[1..], table[0].end, hi, h, k - 1);
    }
  }

  lemma {:induction false} HalfOpenChainStarts(table: seq<HourRange>, lo: int, hi: int, k: nat)
    requires HalfOpenChain(table, lo, hi) && k < |table|
    ensures table[k].start >= lo
    decreases |table|
  {
    if k > 0 {
      HalfOpenChainStarts(table[1..], table[0].end, hi, k - 1);
    }
  }

  lemma {:induction false} FirstSizeRangeOfChain(table: seq<SizeRange>, lo: int, hi: int, n: int, k: nat)
    requires ClosedChain(table, lo, hi) && k < |table| && table[k].min <= n <= table[k].max
    ensures FirstSizeRange(table, n) == Some(table[k])
    decreases |table|
  {
    if k > 0 {
      ClosedChainStarts(table[1..], table[0].max + 1, hi, k - 1);
      FirstSizeRangeOfChain(table[1..], table[0].max + 1, hi, n, k - 1);
    }
  }

  lemma {:induction false} ClosedChainStarts(table: seq<SizeRange>, lo: int, hi: int, k: nat)
    requires ClosedChain(table, lo, hi) && k < |table|
    ensures table[k].min >= lo
    decreases |table|
  {
    if k > 0 {
      ClosedChainStarts(table[1..], table[0].max + 1, hi, k - 1);
    }
  }

  // Display names of the table entries, one literal evaluation each.
  lemma ShownEarlyMorning() ensures DisplayName("early_morning") == "Early Morning" {
    SpacedEarlyMorning();
    TitledEarlyMorning();
  }
  lemma SpacedEarlyMorning() ensures ReplaceChar("early_morning", '_', ' ') == "early morning" { }
  lemma TitledEarlyMorning() ensures Title("early morning") == "Early Morning" { }
  lemma ShownMorning() ensures DisplayName("morning") == "Morning" { }
  lemma ShownAfternoon() ensures DisplayName("afternoon") == "Afternoon" { }
  lemma ShownEvening() ensures DisplayName("evening") == "Evening" { }
  lemma ShownNight() ensures DisplayName("night") == "Night" { }
  lemma ShownSmall() ensures DisplayName("small") == "Small" { }
  lemma ShownMedium() ensures DisplayName("medium") == "Medium" { }
  lemma ShownLarge() ensures DisplayName("large") == "Large" { }
  lemma ShownExtraLarge() ensures DisplayName("extra_large") == "Extra Large" {
    SpacedExtraLarge();
    TitledExtraLarge();
  }
  lemma SpacedExtraLarge() ensures ReplaceChar("extra_large", '_', ' ') == "extra large" { }
  lemma TitledExtraLarge() ensures Title("extra large") == "Extra Large" { }

  /** The first range of `table` that contains `n`. */
  function FirstSizeRange(table: seq<SizeRange>, n: int): (r: Option<SizeRange>)
    ensures r.Some? ==> r.value in table && r.value.min <= n <= r.value.max
    ensures r.None? <==> SizeHits(table, n) == 0
  {
    if table == [] then None
    else if table[0].min <= n <= table[0].max then Some(table[0])
    else FirstSizeRange(table[1..], n)
  }

  /** `get_group_size_category(passengers)` */
  function GetGroupSizeCategory(passengers: int): String {
    match FirstSizeRange(GroupSizeCategories, passengers)
    case Some(r) => DisplayName(r.name)
    case None => "Unknown"
  }

  /** 1..20 passengers are categorized, anything else is "Unknown". */
  lemma GroupSizeCategoryTotal(n: int)
    ensures MinPassengers <= n <= MaxPassengers <==> FirstSizeRange(GroupSizeCategories, n).Some?
    ensures !(MinPassengers <= n <= MaxPassengers) ==> GetGroupSizeCategory(n) == "Unknown"
    ensures 1 <= n <= 4 ==> GetGroupSizeCategory(n) == "Small"
    ensures 5 <= n <= 8 ==> GetGroupSizeCategory(n) == "Medium"
    ensures 9 <= n <= 12 ==> GetGroupSizeCategory(n) == "Large"
    ensures 13 <= n <= 20 ==> GetGroupSizeCategory(n) == "Extra Large"
  {
    GroupSizeCategoriesTile(n);
    assert ClosedChain(GroupSizeCategories, 1, 20);
    if 1 <= n <= 4 {
      FirstSizeRangeOfChain(GroupSizeCategories, 1, 20, n, 0);
      ShownSmall();
    } else if 5 <= n <= 8 {
      FirstSizeRangeOfChain(GroupSizeCategories, 1, 20, n, 1);
      ShownMedium();
    } else if 9 <= n <= 12 {
      FirstSizeRangeOfChain(GroupSizeCategories, 1, 20, n, 2);
      ShownLarge();
    } else if 13 <= n <= 20 {
      FirstSizeRangeOfChain(GroupSizeCategories, 1, 20, n, 3);
      ShownExtraLarge();
    }
  }

  /** Some keyword of `keywords` occurs in `text`. */
  predicate AnyKeyword(text: String, keywords: seq<String>) {
    exists k :: k in keywords && Contains(text, k)
  }

  /** The first category of `table` one of whose keywords occurs in `text`. */
  function FirstCategory(table: seq<LocationCategory>, text: String): (r: Option<nat>)
    ensures r.Some? ==> r.value < |table| && AnyKeyword(text, table[r.value].keywords)
    ensures r.Some? ==> forall j :: 0 <= j < r.value ==> !AnyKeyword(text, table[j].keywords)
    ensures r.None? ==> forall j :: 0 <= j < |table| ==> !AnyKeyword(text, table[j].keywords)
  {
    if table == [] then None
    else if AnyKeyword(text, table[0].keywords) then Some(0)
    else match FirstCategory(table[1..], text)
      case Some(i) => Some(i + 1)
      case None => None
  }

  /** `categorize_location(location)` */
  function CategorizeLocation(location: String): String {
    match FirstCategory(LocationCategories, Lower(location))
    case Some(i) => Title(LocationCategories[i].name)
    case None => "Other"
  }

  /** A name containing "center" or "plaza" is never retail: business
      (index 3), which lists both, comes before retail (index 5). */
  lemma CenterAndPlazaAreNotRetail(location: String)
    requires Contains(Lower(location), "center") || Contains(Lower(location), "plaza")
    ensures var r := FirstCategory(LocationCategories, Lower(location));
      r.Some? && r.value <= 3 && LocationCategories[5].name == "retail"
  {
    var keywords := LocationCategories[3].keywords;
    assert keywords[2] == "center" && keywords[4] == "plaza";
    assert AnyKeyword(Lower(location), keywords);
  }

  /** "Other" exactly when no keyword of any category occurs in the name. */
  lemma CategorizeLocationOther(location: String)
    ensures FirstCategory(LocationCategories, Lower(location)).None? <==>
      forall j :: 0 <= j < |LocationCategories| ==> !AnyKeyword(Lower(location), LocationCategories[j].keywords)
  {
  }

  // ---- clean_location_name ------------------------------------------------

  /** `suffixes_to_remove`, in list order. */
  const SuffixesToRemove: seq<String> := [", Austin, TX", ", Austin, Texas", ", USA", ", United States"]

  /** Check each suffix once, in order, removing it at most once. */
  function StripSuffixes(s: String, suffixes: seq<String>): (r: String)
    ensures |r| <= |s| && r == s[..|r|]
    decreases |suffixes|
  {
    if suffixes == [] then s
    else
      var t := if EndsWith(s, suffixes[0]) then s[..|s| - |suffixes[0]|] else s;
      var r := StripSuffixes(t, suffixes[1..]);
      assert r == s[..|r|];
      r
  }

  /** The suffix loop, over any suffix list. */
  method RemoveSuffixes(start: String, suffixes: seq<String>) returns (cleaned: String)
    ensures cleaned == StripSuffixes(start, suffixes)
  {
    cleaned := start;
    var i := 0;
    while i < |suffixes|
      invariant 0 <= i <= |suffixes|
      invariant StripSuffixes(cleaned, suffixes[i..]) == StripSuffixes(start, suffixes)
    {
      assert suffixes[i..][1..] == suffixes[i + 1..];
      if EndsWith(cleaned, suffixes[i]) {
        cleaned := cleaned[..|cleaned| - |suffixes[i]|];
      }
      i := i + 1;
    }
  }

  /** `clean_location_name(location)`, as written: a missing or empty name is
      "Unknown"; otherwise the trimmed, title-cased name with each listed
      suffix removed at most once, in list order. */
  method CleanLocationName(location: Option<String>) returns (cleaned: String)
    ensures location.None? || location.value == [] ==> cleaned == "Unknown"
    ensures location.Some? && location.value != [] ==>
      cleaned == StripSuffixes(Title(Strip(location.value)), SuffixesToRemove)
  {
    if location.None? || location.value == [] {
      return "Unknown";
    }
    cleaned := RemoveSuffixes(Title(Strip(location.value)), SuffixesToRemove);
  }

  /** Title-casing turns "TX" into "Tx" and "USA" into "Usa": no title-cased
      text ends with the first or the third listed suffix. */
  lemma TitleNeverEndsWithUpperRun(s: String)
    ensures !EndsWith(Title(s), ", Austin, TX")
    ensures !EndsWith(Title(s), ", USA")
  {
    var t := Title(s);
    if |s| >= 2 {
      TitleNoUpperAfterLetter(s, |s| - 1);
    }
  }

  /** Removing `dead` from the end of `u`, if it is there. */
  function CutSuffix(u: String, dead: String): String {
    if EndsWith(u, dead) then u[..|u| - |dead|] else u
  }

  /** Two suffixes that never match drop out of a four-suffix loop. */
  lemma {:induction false} SkipDeadSuffixes(t: String, a: String, b: String, c: String, d: String)
    requires !EndsWith(t, a) && !EndsWith(CutSuffix(t, b), c)
    ensures StripSuffixes(t, [a, b, c, d]) == StripSuffixes(t, [b, d])
  {
    var t2 := CutSuffix(t, b);
    assert [a, b, c, d][1..] == [b, c, d];
    assert [b, c, d][1..] == [c, d];
    assert [c, d][1..] == [d];
    assert [b, d][1..] == [d];
    calc {
      StripSuffixes(t, [a, b, c, d]);
      StripSuffixes(t, [b, c, d]);
      StripSuffixes(t2, [c, d]);
      StripSuffixes(t2, [d]);
      StripSuffixes(t, [b, d]);
    }
  }

  /** As written, the first and third suffixes are dead: on a title-cased
      name the loop removes exactly what a loop over the other two removes. */
  lemma DeadSuffixes(s: String)
    ensures StripSuffixes(Title(s), SuffixesToRemove) ==
      StripSuffixes(Title(s), [", Austin, Texas", ", United States"])
  {
    TitleNeverEndsWithUpperRun(s);
    var t := Title(s);
    var t2 := CutSuffix(t, ", Austin, Texas");
    if t2 != t {
      // t2 is a prefix of a title-cased string, hence title-cased itself
      TitlePrefix(s, |t2|);
      TitleNeverEndsWithUpperRun(s[..|t2|]);
    }
    SkipDeadSuffixes(t, ", Austin, TX", ", Austin, Texas", ", USA", ", United States");
  }

  /** A Texas address keeps its ", Austin, Tx" tail. */
  lemma CleanLocationNameKeepsTexasSuffix()
    ensures StripSuffixes(Title("x, austin, tx"), SuffixesToRemove) == "X, Austin, Tx"
  {
    TexasAddressTitled();
    DeadSuffixes("x, austin, tx");
  }

  lemma TexasAddressTitled()
    ensures Title("x, austin, tx") == "X, Austin, Tx"
  {
  }

  function TitleAll(ss: seq<String>): (r: seq<String>)
    ensures |r| == |ss|
    ensures forall i :: 0 <= i < |ss| ==> r[i] == Title(ss[i])
  {
    if ss == [] then [] else [Title(ss[0])] + TitleAll(ss[1..])
  }

  /** `clean_location_name` as intended: the suffixes are compared in the
      same title case as the name they are cut from. */
  method CleanLocationNameCorrected(location: Option<String>) returns (cleaned: String)
    ensures location.None? || location.value == [] ==> cleaned == "Unknown"
    ensures location.Some? && location.value != [] ==>
      cleaned == StripSuffixes(Title(Strip(location.value)), TitleAll(SuffixesToRemove))
  {
    if location.None? || location.value == [] {
      return "Unknown";
    }
    cleaned := RemoveSuffixes(Title(Strip(location.value)), TitleAll(SuffixesToRemove));
  }

  /** A name ending with one of the suffixes loses some tail. */
  lemma {:induction false} StripSuffixesShortens(s: String, suffixes: seq<String>, k: nat)
    requires k < |suffixes| && suffixes[k] != [] && EndsWith(s, suffixes[k])
    ensures |StripSuffixes(s, suffixes)| < |s|
  {
    if EndsWith(s, suffixes[0]) {
      var t := s[..|s| - |suffixes[0]|];
      assert StripSuffixes(s, suffixes) == StripSuffixes(t, suffixes[1..]);
      if suffixes[0] == [] {
        assert t == s;
        StripSuffixesShortens(t, suffixes[1..], k - 1);
      }
    } else {
      assert StripSuffixes(s, suffixes) == StripSuffixes(s, suffixes[1..]);
      StripSuffixesShortens(s, suffixes[1..], k - 1);
    }
  }

  /** As intended, every listed suffix is removed from a name that ends with
      it in title case. */
  lemma CleanLocationNameCorrectedRemovesSuffix(s: String, k: nat)
    requires k < |SuffixesToRemove| && EndsWith(Title(Strip(s)), Title(SuffixesToRemove[k]))
    ensures |StripSuffixes(Title(Strip(s)), TitleAll(SuffixesToRemove))| < |Title(Strip(s))|
  {
    StripSuffixesShortens(Title(Strip(s)), TitleAll(SuffixesToRemove), k);
  }

  /** In particular, as intended a Texas address loses its state. */
  lemma CleanLocationNameCorrectedDropsTexas()
    ensures StripSuffixes(Title("x, austin, tx"), TitleAll(SuffixesToRemove)) == "X"
  {
    TexasAddressTitled();
    TexasSuffixTitled();
    var t := Title("x, austin, tx");
    var fixed := TitleAll(SuffixesToRemove);
    assert EndsWith(t, fixed[0]);
    assert t[..|t| - |fixed[0]|] == "X";
    assert StripSuffixes(t, fixed) == StripSuffixes("X", fixed[1..]);
    StripSuffixesLonger("X", fixed[1..]);
  }

  /** Suffixes longer than the name never match. */
  lemma {:induction false} StripSuffixesLonger(s: String, suffixes: seq<String>)
    requires forall i :: 0 <= i < |suffixes| ==> |suffixes[i]| > |s|
    ensures StripSuffixes(s, suffixes) == s
    decreases |suffixes|
  {
    if suffixes != [] {
      StripSuffixesLonger(s, suffixes[1..]);
    }
  }

  lemma TexasSuffixTitled()
    ensures Title(", Austin, TX") == ", Austin, Tx"
  {
  }

  // ---- extract_numbers_from_text -------------------------------------------

  /** `[int(n) for n in re.findall(r'\d+', text)]`: the values of the maximal
      digit runs, left to right. */
  function ExtractNumbers(text: String): seq<nat>
    decreases |text|
  {
    if text == [] then []
    else if IsDigit(text[0]) then
      var n := DigitRunLen(text, 0);
      [DigitsValue(text[..n])] + ExtractNumbers(text[n..])
    else ExtractNumbers(text[1..])
  }

  /** No digits, no numbers; a digit somewhere, at least one number. */
  lemma {:induction false} ExtractNumbersEmpty(text: String)
    ensures ExtractNumbers(text) == [] <==> forall i :: 0 <= i < |text| ==> !IsDigit(text[i])
    decreases |text|
  {
    if text != [] && !IsDigit(text[0]) {
      ExtractNumbersEmpty(text[1..]);
      assert forall i :: 1 <= i < |text| ==> text[i] == text[1..][i - 1];
    }
  }

  /** Numbers written out with a separator are read back in order. */
  function JoinNumbers(ns: seq<nat>): String {
    if ns == [] then [] else NatToString(ns[0]) + " " + JoinNumbers(ns[1..])
  }

  lemma {:induction false} ExtractNumbersRoundTrip(ns: seq<nat>)
    ensures ExtractNumbers(JoinNumbers(ns)) == ns
  {
    if ns != [] {
      var d := NatToString(ns[0]);
      var rest := " " + JoinNumbers(ns[1..]);
      var text := d + rest;
      assert JoinNumbers(ns) == text;
      DigitRunOfPrefix(d, rest, 0);
      assert text[..|d|] == d;
      assert text[|d|..] == rest;
      NatToStringRoundTrip(ns[0]);
      assert rest[1..] == JoinNumbers(ns[1..]);
      ExtractNumbersRoundTrip(ns[1..]);
    }
  }

  // ---- search_locations ---------------------------------------------------

  /** Append, in input order, every location that satisfies `p` and is not
      already in the list (`if ... and location not in matches`). */
  function AppendNew(acc: seq<String>, locations: seq<String>, p: String -> bool): seq<String>
    decreases |locations|
  {
    if locations == [] then acc
    else AppendNew(if p(locations[0]) && locations[0] !in acc then acc + [locations[0]] else acc,
                   locations[1..], p)
  }

  /** The names a pass may add to `acc`: those passing `p` not yet in `acc`. */
  function NewPassing(acc: seq<String>, p: String -> bool): String -> bool {
    x => p(x) && x !in acc
  }

  /** One step of a pass: append `y` when it passes and is new. */
  function Step(r: seq<String>, y: String, p: String -> bool): seq<String> {
    if p(y) && y !in r then r + [y] else r
  }

  /** One more location at the end of the input is one more step of the loop. */
  lemma {:induction false} AppendNewSnoc(acc: seq<String>, locations: seq<String>, y: String, p: String -> bool)
    ensures AppendNew(acc, locations + [y], p) == Step(AppendNew(acc, locations, p), y, p)
    decreases |locations|
  {
    if locations == [] {
      assert [y][1..] == [];
    } else {
      assert (locations + [y])[0] == locations[0];
      assert (locations + [y])[1..] == locations[1..] + [y];
      var acc' := if p(locations[0]) && locations[0] !in acc then acc + [locations[0]] else acc;
      AppendNewSnoc(acc', locations[1..], y, p);
    }
  }

  /** A step over `acc + d` leaves `acc` in front and appends `y` to `d`
      when it passes and is in neither. */
  lemma StepAppend(acc: seq<String>, d: seq<String>, y: String, p: String -> bool)
    ensures Step(acc + d, y, p) == acc + (if p(y) && y !in acc && y !in d then d + [y] else d)
  {
    assert y in acc + d <==> y in acc || y in d;
    assert (acc + d) + [y] == acc + (d + [y]);
  }

  /** A step over `acc + Distinct(f)` appends to the distinct part exactly
      what one more element of `f` would. */
  lemma StepDistinct(acc: seq<String>, f: seq<String>, y: String, p: String -> bool)
    ensures Step(acc + Distinct(f), y, p) ==
      acc + Distinct(f + Filter([y], NewPassing(acc, p)))
  {
    var q := NewPassing(acc, p);
    StepAppend(acc, Distinct(f), y, p);
    DistinctMember(f, y);
    FilterSingle(y, q);
    if q(y) {
      DistinctSnoc(f, y);
    } else {
      assert f + [] == f;
    }
  }

  /** A pass appends, in order of first appearance in the input, exactly the
      distinct input names that pass its test and are not yet listed. */
  lemma {:induction false} AppendNewDistinct(acc: seq<String>, locations: seq<String>, p: String -> bool)
    ensures AppendNew(acc, locations, p) == acc + Distinct(Filter(locations, NewPassing(acc, p)))
    decreases |locations|
  {
    var q := NewPassing(acc, p);
    if locations == [] {
      assert acc + [] == acc;
    } else {
      var front := locations[..|locations| - 1];
      var y := locations[|locations| - 1];
      assert locations == front + [y];
      calc {
        AppendNew(acc, locations, p);
      == { AppendNewSnoc(acc, front, y, p); }
        Step(AppendNew(acc, front, p), y, p);
      == { AppendNewDistinct(acc, front, p); }
        Step(acc + Distinct(Filter(front, q)), y, p);
      == { StepDistinct(acc, Filter(front, q), y, p); }
        acc + Distinct(Filter(front, q) + Filter([y], q));
      == { FilterAppend(front, [y], q); }
        acc + Distinct(Filter(locations, q));
      }
    }
  }

  /** A pass keeps the list it starts from and appends only new names from
      the input that pass its test, never one twice; it leaves no passing
      name out. */
  lemma {:induction false} AppendNewSpec(acc: seq<String>, locations: seq<String>, p: String -> bool)
    ensures var r := AppendNew(acc, locations, p);
      |acc| <= |r| && r[..|acc|] == acc && AddedBy(r[|acc|..], acc, locations, p)
    decreases |locations|
  {
    var r := AppendNew(acc, locations, p);
    if locations != [] {
      var x := locations[0];
      var acc' := if p(x) && x !in acc then acc + [x] else acc;
      AppendNewSpec(acc', locations[1..], p);
      var t' := r[|acc'|..];
      var t := r[|acc|..];
      assert acc' == r[..|acc'|];
      assert AddedBy(t, acc, locations, p) by {
        if p(x) && x !in acc {
          assert t == [x] + t';
          assert x !in t' by {
            forall i | 0 <= i < |t'| ensures t'[i] != x { assert t'[i] !in acc'; }
          }
        } else {
          assert t == t';
        }
        forall i | 0 <= i < |t| ensures t[i] in locations && p(t[i]) && t[i] !in acc {
          if p(x) && x !in acc && i > 0 { assert t[i] == t'[i - 1]; }
          else if p(x) && x !in acc { assert t[i] == x; }
          else { assert t[i] == t'[i]; }
        }
      }
    } else {
      assert r[|acc|..] == [];
    }
  }

  ghost predicate AddedBy(t: seq<String>, acc: seq<String>, locations: seq<String>, p: String -> bool) {
    && NoDups(t)
    && (forall i :: 0 <= i < |t| ==> t[i] in locations && p(t[i]) && t[i] !in acc)
  }

  /** The tests of the three passes: equal to the query, containing it,
      containing one of its words (all ignoring case). */
  function ExactTest(q: String): String -> bool {
    l => q == Lower(l)
  }

  function PartialTest(q: String): String -> bool {
    l => Contains(Lower(l), q)
  }

  function WordTest(words: seq<String>): String -> bool {
    l => exists w :: w in words && Contains(Lower(l), w)
  }

  /** The list the three passes of `search_locations` build, before the cut. */
  function SearchPasses(query: String, locations: seq<String>): seq<String> {
    var q := Lower(query);
    var partial := AppendNew(Filter(locations, ExactTest(q)), locations, PartialTest(q));
    AppendNew(partial, locations, WordTest(SplitWords(q)))
  }

  /** `search_locations(query, locations, max_results)` */
  method SearchLocations(query: String, locations: seq<String>, maxResults: int) returns (matches: seq<String>)
    ensures matches == SliceTo(SearchPasses(query, locations), maxResults)
  {
    var q := Lower(query);
    var found := ExactPass(q, locations);
    found := AppendPass(found, locations, PartialTest(q));
    found := AppendPass(found, locations, WordTest(SplitWords(q)));
    matches := SliceTo(found, maxResults);
  }

  /** The first loop: every location equal to the query, in input order. */
  method ExactPass(q: String, locations: seq<String>) returns (found: seq<String>)
    ensures found == Filter(locations, ExactTest(q))
  {
    found := [];
    var i := 0;
    while i < |locations|
      invariant 0 <= i <= |locations|
      invariant found == Filter(locations[..i], ExactTest(q))
    {
      FilterSnoc(locations, i, ExactTest(q));
      if q == Lower(locations[i]) {
        found := found + [locations[i]];
      }
      i := i + 1;
    }
    assert locations[..i] == locations;
  }

  /** The second and third loops: append each location that passes `test`
      and is not yet in the list. */
  method AppendPass(start: seq<String>, locations: seq<String>, test: String -> bool) returns (found: seq<String>)
    ensures found == AppendNew(start, locations, test)
  {
    found := start;
    var i := 0;
    while i < |locations|
      invariant 0 <= i <= |locations|
      invariant AppendNew(found, locations[i..], test) == AppendNew(start, locations, test)
    {
      assert locations[i..][1..] == locations[i + 1..];
      if test(locations[i]) && locations[i] !in found {
        found := found + [locations[i]];
      }
      i := i + 1;
    }
  }

  /** The passes of `search_locations`: exact matches first (in input
      order), then the new names containing the query, then the new names
      containing one of its words; no name is added twice by the last two
      passes. */
  lemma SearchPassesOrder(query: String, locations: seq<String>)
    ensures var q := Lower(query);
      var exact := Filter(locations, ExactTest(q));
      var partial := AppendNew(exact, locations, PartialTest(q));
      var all := SearchPasses(query, locations);
      && |exact| <= |partial| <= |all|
      && partial[..|exact|] == exact && all[..|partial|] == partial
      && AddedBy(partial[|exact|..], exact, locations, PartialTest(q))
      && AddedBy(all[|partial|..], partial, locations, WordTest(SplitWords(q)))
      && partial == exact + Distinct(Filter(locations, NewPassing(exact, PartialTest(q))))
      && all == partial + Distinct(Filter(locations, NewPassing(partial, WordTest(SplitWords(q)))))
  {
    var q := Lower(query);
    var exact := Filter(locations, ExactTest(q));
    var partial := AppendNew(exact, locations, PartialTest(q));
    assert SearchPasses(query, locations) == AppendNew(partial, locations, WordTest(SplitWords(q)));
    AppendNewSpec(exact, locations, PartialTest(q));
    AppendNewSpec(partial, locations, WordTest(SplitWords(q)));
    AppendNewDistinct(exact, locations, PartialTest(q));
    AppendNewDistinct(partial, locations, WordTest(SplitWords(q)));
  }

  /** A pass only adds names of the input and drops none. */
  lemma {:induction false} AppendNewBounds(acc: seq<String>, locations: seq<String>, p: String -> bool)
    ensures forall x :: x in AppendNew(acc, locations, p) ==> x in acc || x in locations
    ensures forall x :: x in acc ==> x in AppendNew(acc, locations, p)
    ensures forall x :: x in locations && p(x) ==> x in AppendNew(acc, locations, p)
    decreases |locations|
  {
    if locations != [] {
      var x := locations[0];
      var acc' := if p(x) && x !in acc then acc + [x] else acc;
      AppendNewBounds(acc', locations[1..], p);
    }
  }

  /** Every name the passes return comes from the input. */
  lemma SearchPassesFromInput(query: String, locations: seq<String>)
    ensures forall x :: x in SearchPasses(query, locations) ==> x in locations
  {
    var q := Lower(query);
    var exact := Filter(locations, ExactTest(q));
    AppendNewBounds(exact, locations, PartialTest(q));
    AppendNewBounds(AppendNew(exact, locations, PartialTest(q)), locations, WordTest(SplitWords(q)));
  }

  /** No name containing the query is left out. */
  lemma SearchPassesComplete(query: String, locations: seq<String>)
    ensures forall x :: x in locations && Contains(Lower(x), Lower(query)) ==> x in SearchPasses(query, locations)
  {
    var q := Lower(query);
    var exact := Filter(locations, ExactTest(q));
    AppendNewBounds(exact, locations, PartialTest(q));
    AppendNewBounds(AppendNew(exact, locations, PartialTest(q)), locations, WordTest(SplitWords(q)));
    forall x | x in locations && Contains(Lower(x), q) ensures x in SearchPasses(query, locations) {
      assert PartialTest(q)(x);
    }
  }

  /** The result of `search_locations`: at most `max_results` names (all of
      them for a negative bound cutting from the end), all from the input. */
  lemma SearchLocationsSpec(query: String, locations: seq<String>, maxResults: int)
    ensures var r := SliceTo(SearchPasses(query, locations), maxResults);
      && |r| <= (if maxResults < 0 then |SearchPasses(query, locations)| else maxResults)
      && forall i :: 0 <= i < |r| ==> r[i] in locations
  {
    SearchPassesFromInput(query, locations);
    var all := SearchPasses(query, locations);
    var r := SliceTo(all, maxResults);
    forall i | 0 <= i < |r| ensures r[i] in locations {
      assert r[i] == all[i];
    }
  }

  // ---- validate_data ------------------------------------------------------

  /** One input row; `None` is a missing (NaN) value. */
  datatype Row = Row(tripId: Option<int>, passengers: Option<int>, dateText: Option<String>)

  /** The three columns `validate_data` requires: "Trip ID", "Total
      Passengers" and "Trip Date and Time". */
  datatype Column = TripIdColumn | PassengersColumn | DateColumn

  /** The required columns present and the rows of the frame to validate. */
  datatype Frame = Frame(columns: set<Column>, rows: seq<Row>)

  datatype Issue =
    | MissingColumns(columns: seq<Column>)
    | EmptyDataset
    | InvalidPassengers(count: nat)
    | InvalidDates(count: nat)
    | DuplicateTripIds(count: nat)

  const RequiredColumns: seq<Column> := [TripIdColumn, PassengersColumn, DateColumn]

  /** The required columns absent from `columns`, in list order. */
  function MissingOf(columns: set<Column>, required: seq<Column>): (r: seq<Column>)
    ensures forall c :: c in r <==> c in required && c !in columns
  {
    if required == [] then []
    else (if required[0] in columns then [] else [required[0]]) + MissingOf(columns, required[1..])
  }

  lemma {:induction false} MissingOfEmpty(columns: set<Column>, required: seq<Column>)
    ensures MissingOf(columns, required) == [] <==> forall c :: c in required ==> c in columns
  {
    if required != [] {
      MissingOfEmpty(columns, required[1..]);
      assert forall c :: c in required <==> c == required[0] || c in required[1..];
    }
  }

  /** A passenger count outside 1..20, or a missing one. */
  predicate BadPassengers(r: Row) {
    r.passengers.None? || r.passengers.value < MinPassengers || r.passengers.value > MaxPassengers
  }

  /** A present date text that no accepted format parses. */
  predicate BadDate(r: Row, validDate: String -> bool) {
    r.dateText.Some? && !validDate(r.dateText.value)
  }

  function BadDateTest(validDate: String -> bool): Row -> bool {
    r => BadDate(r, validDate)
  }

  /** `Series.duplicated().sum()`: rows whose id repeats an earlier row's. */
  function DuplicateCount<T(==)>(ids: seq<T>): nat {
    if ids == [] then 0
    else DuplicateCount(ids[..|ids| - 1]) + (if ids[|ids| - 1] in ids[..|ids| - 1] then 1 else 0)
  }

  /** Every row beyond the distinct ids is a duplicate. */
  lemma {:induction false} DuplicateCountDistinct<T>(ids: seq<T>)
    ensures DuplicateCount(ids) + |Distinct(ids)| == |ids|
  {
    if ids != [] {
      var init := ids[..|ids| - 1];
      DuplicateCountDistinct(init);
      var x := ids[|ids| - 1];
      assert x in Distinct(init) <==> x in init by {
        if x in init {
          var k :| 0 <= k < |init| && init[k] == x;
        }
      }
    }
  }

  function TripIds(rows: seq<Row>): (r: seq<Option<int>>)
    ensures |r| == |rows|
    ensures forall i :: 0 <= i < |rows| ==> r[i] == rows[i].tripId
  {
    if rows == [] then [] else [rows[0].tripId] + TripIds(rows[1..])
  }

  /** The issue a count raises when it is positive. */
  function IssueIf(present: bool, count: nat, issue: Issue): seq<Issue> {
    if present && count > 0 then [issue] else []
  }

  /** An issue is raised exactly when its column is present and its count
      positive, and then it is the only one. */
  lemma IssueIfIn(present: bool, count: nat, issue: Issue, x: Issue)
    ensures x in IssueIf(present, count, issue) <==> present && count > 0 && x == issue
  {
  }

  /** The issues `validate_data` reports, in the order it reports them. */
  function ValidationIssues(data: Frame, validDate: String -> bool): seq<Issue> {
    var missing := MissingOf(data.columns, RequiredColumns);
    var head := if missing != [] then [MissingColumns(missing)] else [];
    if data.rows == [] then head + [EmptyDataset]
    else
      var badPassengers := CountWhere(data.rows, BadPassengers);
      var badDates := CountWhere(data.rows, BadDateTest(validDate));
      var duplicates := DuplicateCount(TripIds(data.rows));
      head
      + IssueIf(PassengersColumn in data.columns, badPassengers, InvalidPassengers(badPassengers))
      + IssueIf(DateColumn in data.columns, badDates, InvalidDates(badDates))
      + IssueIf(TripIdColumn in data.columns, duplicates, DuplicateTripIds(duplicates))
  }

  /** The loop over the present date texts, counting those no format parses. */
  method CountBadDates(rows: seq<Row>, validDate: String -> bool) returns (invalidDates: nat)
    ensures invalidDates == CountWhere(rows, BadDateTest(validDate))
  {
    invalidDates := 0;
    var i := 0;
    while i < |rows|
      invariant 0 <= i <= |rows|
      invariant invalidDates == CountWhere(rows[..i], BadDateTest(validDate))
    {
      CountWherePrefix(rows, i, BadDateTest(validDate));
      var row := rows[i];
      if row.dateText.Some? && !validDate(row.dateText.value) {
        invalidDates := invalidDates + 1;
      }
      i := i + 1;
    }
    assert rows[..i] == rows;
  }

  /** `validate_data(data)`, with the date parser abstracted to `validDate`;
      each check's issue, if any, is appended in the order of the checks. */
  method ValidateData(data: Frame, validDate: String -> bool) returns (ok: bool, issues: seq<Issue>)
    ensures issues == ValidationIssues(data, validDate)
    ensures ok <==> issues == []
  {
    var missing := MissingOf(data.columns, RequiredColumns);
    var head: seq<Issue> := [];
    if missing != [] {
      head := [MissingColumns(missing)];
    }
    if |data.rows| == 0 {
      return false, head + [EmptyDataset];
    }
    var passengerIssue: seq<Issue> := [];
    if PassengersColumn in data.columns {
      var invalid := CountWhere(data.rows, BadPassengers);
      if invalid > 0 {
        passengerIssue := [InvalidPassengers(invalid)];
      }
    }
    var dateIssue: seq<Issue> := [];
    if DateColumn in data.columns {
      var invalidDates := CountBadDates(data.rows, validDate);
      if invalidDates > 0 {
        dateIssue := [InvalidDates(invalidDates)];
      }
    }
    var duplicateIssue: seq<Issue> := [];
    if TripIdColumn in data.columns {
      var duplicates := DuplicateCount(TripIds(data.rows));
      if duplicates > 0 {
        duplicateIssue := [DuplicateTripIds(duplicates)];
      }
    }
    issues := head + passengerIssue + dateIssue + duplicateIssue;
    ok := |issues| == 0;
  }

  /** The data passes exactly when every column is present, there are rows,
      and no passenger count, date or trip id is bad; the missing columns
      come first, and an empty dataset is reported last and alone with
      them. */
  lemma ValidationVerdict(data: Frame, validDate: String -> bool)
    ensures var issues := ValidationIssues(data, validDate);
      issues == [] <==>
        && (forall c :: c in RequiredColumns ==> c in data.columns)
        && data.rows != []
        && CountWhere(data.rows, BadPassengers) == 0
        && CountWhere(data.rows, BadDateTest(validDate)) == 0
        && DuplicateCount(TripIds(data.rows)) == 0
    ensures var issues := ValidationIssues(data, validDate);
      var missing := MissingOf(data.columns, RequiredColumns);
      missing != [] <==> |issues| > 0 && issues[0] == MissingColumns(missing)
    ensures data.rows == [] ==>
      var issues := ValidationIssues(data, validDate);
      issues[|issues| - 1] == EmptyDataset && |issues| <= 2
    ensures EmptyDataset in ValidationIssues(data, validDate) <==> data.rows == []
  {
    var missing := MissingOf(data.columns, RequiredColumns);
    MissingOfEmpty(data.columns, RequiredColumns);
  }

  /** An issue of a later check is in the list exactly when it is in the
      part that check contributes. */
  lemma RowIssueIn(data: Frame, validDate: String -> bool, x: Issue)
    requires !x.MissingColumns? && !x.EmptyDataset?
    ensures x in ValidationIssues(data, validDate) <==>
      data.rows != [] &&
      var badPassengers := CountWhere(data.rows, BadPassengers);
      var badDates := CountWhere(data.rows, BadDateTest(validDate));
      var duplicates := DuplicateCount(TripIds(data.rows));
      || x in IssueIf(PassengersColumn in data.columns, badPassengers, InvalidPassengers(badPassengers))
      || x in IssueIf(DateColumn in data.columns, badDates, InvalidDates(badDates))
      || x in IssueIf(TripIdColumn in data.columns, duplicates, DuplicateTripIds(duplicates))
  {
  }

  /** Each count is reported exactly when its column is present, there are
      rows, and the count is positive. */
  lemma PassengerIssueReported(data: Frame, validDate: String -> bool, n: nat)
    ensures InvalidPassengers(n) in ValidationIssues(data, validDate) <==>
      data.rows != [] && PassengersColumn in data.columns && n == CountWhere(data.rows, BadPassengers) && n > 0
  {
    RowIssueIn(data, validDate, InvalidPassengers(n));
    IssueIfIn(PassengersColumn in data.columns, CountWhere(data.rows, BadPassengers),
      InvalidPassengers(CountWhere(data.rows, BadPassengers)), InvalidPassengers(n));
    IssueIfIn(DateColumn in data.columns, CountWhere(data.rows, BadDateTest(validDate)),
      InvalidDates(CountWhere(data.rows, BadDateTest(validDate))), InvalidPassengers(n));
    IssueIfIn(TripIdColumn in data.columns, DuplicateCount(TripIds(data.rows)),
      DuplicateTripIds(DuplicateCount(TripIds(data.rows))), InvalidPassengers(n));
  }

  lemma DateIssueReported(data: Frame, validDate: String -> bool, n: nat)
    ensures InvalidDates(n) in ValidationIssues(data, validDate) <==>
      data.rows != [] && DateColumn in data.columns && n == CountWhere(data.rows, BadDateTest(validDate)) && n > 0
  {
    RowIssueIn(data, validDate, InvalidDates(n));
    IssueIfIn(PassengersColumn in data.columns, CountWhere(data.rows, BadPassengers),
      InvalidPassengers(CountWhere(data.rows, BadPassengers)), InvalidDates(n));
    IssueIfIn(DateColumn in data.columns, CountWhere(data.rows, BadDateTest(validDate)),
      InvalidDates(CountWhere(data.rows, BadDateTest(validDate))), InvalidDates(n));
    IssueIfIn(TripIdColumn in data.columns, DuplicateCount(TripIds(data.rows)),
      DuplicateTripIds(DuplicateCount(TripIds(data.rows))), InvalidDates(n));
  }

  lemma DuplicateIssueReported(data: Frame, validDate: String -> bool, n: nat)
    ensures DuplicateTripIds(n) in ValidationIssues(data, validDate) <==>
      data.rows != [] && TripIdColumn in data.columns && n == DuplicateCount(TripIds(data.rows)) && n > 0
  {
    RowIssueIn(data, validDate, DuplicateTripIds(n));
    IssueIfIn(PassengersColumn in data.columns, CountWhere(data.rows, BadPassengers),
      InvalidPassengers(CountWhere(data.rows, BadPassengers)), DuplicateTripIds(n));
    IssueIfIn(DateColumn in data.columns, CountWhere(data.rows, BadDateTest(validDate)),
      InvalidDates(CountWhere(data.rows, BadDateTest(validDate))), DuplicateTripIds(n));
    IssueIfIn(TripIdColumn in data.columns, DuplicateCount(TripIds(data.rows)),
      DuplicateTripIds(DuplicateCount(TripIds(data.rows))), DuplicateTripIds(n));
  }
}
