# FetiiAI chatbot core in Dafny

This project models the rule-based question answering of the FetiiAI
rideshare assistant and the trip aggregates it draws on.

**The session.** `FetiiChatbot` normalises a question (lower case, trimmed)
and logs it. It then classifies the question against an ordered table of
patterns, cuts time phrases out of a captured location, and routes it to one
of six handlers. Handlers answer about:
- one location, with a three-tier fuzzy resolver
- busy hours
- group sizes
- top locations
- demographics
- an overview

A handler that raises makes the session return a fixed apology.

**The store.** `DataProcessor` keeps the cleaned trip records and a cached
`insights` record. It answers per-location, time-pattern and conjunctive
filter queries.

**Utilities and tables.** The model also covers:
- the 12-hour clock formatter
- the table-driven hour, group-size and location categorisers
- the location-name cleaner
- number extraction
- the three-pass location search
- the data validator
- the category tables and thresholds they read

Modules follow the program:

| module | file | models |
|---|---|---|
| `Text` | text.dfy | the ASCII string built-ins the code relies on (`lower`, `title`, `strip`, `split`, `in`, whitespace collapse, digits) |
| `Seqs` | seqs.dfy | counting, filtering, stable descending sort, `value_counts`, `sort_index`, `mode`, `head` |
| `Config` | config.dfy | config.py's category tables and thresholds |
| `Utils` | utils.dfy | utils.py |
| `Trips` | trips.dfy | data_processor.py, with the record frame as `seq<Trip>` |
| `Patterns` | patterns.dfy | the question patterns, the question classifier and the time-phrase cleaner of chatbot_engine.py |
| `Chatbot` | chatbot.dfy | the fuzzy resolver, the handlers, dispatch, and the `FetiiChatbot` class |

**How handlers are shaped.** Each handler is a function that returns the
data its reply text interpolates, wrapped in `Option`; `None` is the
exception path. The loops of the source are methods proved equal to those
functions: the merge of value counts, the match tiers, the spot search, the
suffix loop, the search passes, the validator, the classifier and the
cleaner. Properties are lemmas about the functions.

## Model

| member | source | states |
|---|---|---|
| Config.TimeCategoriesTileDay | config.py:87-93 | the half-open hour ranges cover every hour 0..23 exactly once and no other hour |
| Config.GroupSizeCategoriesTile | config.py:96-101 | the closed size ranges cover every count 1..20 exactly once and nothing else |
| Config.PassengerBoundsMatchTable | config.py:213-215 | the validation bounds 1 and 20 are the first minimum and the last maximum of the group-size table |
| Utils.FormatTimeOnDay | utils.py:43-52 | 0 is "12:00 AM", 1..11 "h:00 AM", 12 "12:00 PM", 13..23 "(h-12):00 PM" |
| Utils.FormatTimePm | utils.py:43-52 | the text ends in PM exactly when the hour is at least 12 |
| Utils.FormatTimeRoundTrip | utils.py:43-52 | reading the clock text back gives the hour, for every hour of the day |
| Utils.FormatTimeInjective | utils.py:43-52 | two hours of the day with the same text are equal |
| Utils.FirstHourRange | utils.py:54-59 | the range found contains the hour and is in the table; none is found exactly when no range contains it |
| Utils.TimeCategoryTotal | utils.py:54-59 | an hour gets a category exactly when it is in 0..23, the display name of its range; otherwise "Unknown" |
| Utils.TimeCategoryNames | utils.py:54-59 | the five hour bands get "Early Morning", "Morning", "Afternoon", "Evening" and "Night" |
| Utils.FirstSizeRange | utils.py:61-66 | the range found contains the count; none is found exactly when no range contains it |
| Utils.GroupSizeCategoryTotal | utils.py:61-66 | 1..20 is categorised (Small, Medium, Large, Extra Large by band), anything else is "Unknown" |
| Utils.FirstCategory | utils.py:26-34 | the first category in table order with a keyword in the name; no earlier one has any |
| Utils.CenterAndPlazaAreNotRetail | utils.py:26-34 | a name containing "center" or "plaza" gets a category no later than business, never retail |
| Utils.CategorizeLocationOther | utils.py:26-34 | "Other" exactly when no category's keyword occurs in the lower-cased name |
| Utils.RemoveSuffixes | utils.py:19-22 | the suffix loop removes each listed suffix at most once, in list order |
| Utils.CleanLocationName | utils.py:12-24 | missing or empty gives "Unknown"; otherwise the trimmed, title-cased name with the suffixes removed as written |
| Utils.DeadSuffixes | utils.py:17-22 | on a title-cased name the first and third suffixes never match: the loop equals one over the other two |
| Utils.CleanLocationNameKeepsTexasSuffix | utils.py:17-22 | "x, austin, tx" keeps its tail and comes out as "X, Austin, Tx" |
| Utils.CleanLocationNameCorrected | utils.py:12-24 | the cleaner with suffixes compared in title case |
| Utils.CleanLocationNameCorrectedRemovesSuffix | utils.py:19-22 | in the corrected cleaner, a name ending with any listed suffix loses a tail |
| Utils.CleanLocationNameCorrectedDropsTexas | utils.py:19-22 | the corrected cleaner turns "x, austin, tx" into "X" |
| Utils.ExtractNumbersEmpty | utils.py:68-71 | no numbers exactly when the text has no digit |
| Utils.ExtractNumbersRoundTrip | utils.py:68-71 | numbers written with separators between them are extracted back, in order |
| Utils.ExactPass | utils.py:215-217 | the first pass keeps the names equal to the query ignoring case, in input order |
| Utils.AppendPass | utils.py:219-227 | a later pass appends, in input order, the passing names not already present |
| Utils.AppendNewDistinct | utils.py:219-227 | a pass appends exactly the distinct input names that pass and are not yet listed, in order of first appearance |
| Utils.SearchLocations | utils.py:210-230 | the result is the three passes' list cut at `max_results` |
| Utils.AppendNewSpec | utils.py:219-227 | a pass keeps what it was given as a prefix and adds only new, distinct, passing input names |
| Utils.SearchPassesOrder | utils.py:210-230 | exact matches first, then the new partial matches, then the new word matches, none added twice; each later pass adds its names in order of first appearance in the input |
| Utils.SearchPassesFromInput | utils.py:210-230 | every name returned is from the input |
| Utils.SearchPassesComplete | utils.py:219-221 | every input name containing the query is in the full list |
| Utils.SearchLocationsSpec | utils.py:230 | at most `max_results` names (Python slice semantics for a negative bound), all from the input |
| Utils.MissingOf | utils.py:155-156 | exactly the required columns that are absent |
| Utils.MissingOfEmpty | utils.py:155-158 | no missing-columns issue exactly when every required column is present |
| Utils.DuplicateCountDistinct | utils.py:179-182 | the duplicate count plus the number of distinct ids is the number of rows |
| Utils.CountBadDates | utils.py:172-177 | the counter loop counts the rows whose present date does not parse |
| Utils.ValidateData | utils.py:150-185 | the issues are the checks' issues in source order, and the verdict is true exactly when there are none |
| Utils.ValidationVerdict | utils.py:150-185 | valid iff all columns present, rows present, and no bad count, date or duplicate; missing columns first; an empty dataset returns at once |
| Utils.PassengerIssueReported | utils.py:164-170 | the passenger issue appears exactly with its column, rows, and a positive count of out-of-range or missing counts |
| Utils.DateIssueReported | utils.py:172-177 | the date issue appears exactly with its column, rows, and a positive bad-date count |
| Utils.DuplicateIssueReported | utils.py:179-182 | the duplicate issue appears exactly with its column, rows, and a positive duplicate count |
| Trips.FirstField | data_processor.py:92-96 | the text before the first comma, with no comma in it |
| Trips.ExtractMainLocationCorrect | data_processor.py:92-96 | missing gives "Unknown"; without a comma the whole text trimmed; never a comma; never space at either end |
| Trips.ExtractMainLocationAtComma | data_processor.py:92-96 | at the first comma the result is the trimmed text before it |
| Trips.CategorizeTimeAgrees | data_processor.py:107-118 | total over the five labels; agrees with the utils categoriser on 6..23 and says "Late Night" where that one says "Early Morning" or "Unknown" |
| Trips.CategorizeGroupSizeMonotone | data_processor.py:127-136 | more passengers never give an earlier group label |
| Trips.CategorizeGroupSizeTotal | data_processor.py:127-136 | every count gets one of the four labels |
| Trips.EntertainmentIsFirstCategory | data_processor.py:138-141 | an entertainment venue is the first location category of the utils table |
| Trips.CampusIsEarlyCategory | data_processor.py:143-146 | a campus name is entertainment or campus in the utils table |
| Trips.MeanBounds | data_processor.py:152 | the mean of values within bounds is within the bounds |
| Trips.InsightsTotals | data_processor.py:150-159 | total is the number of records; large-groups count is the records of at least 6, and equals the distribution's sum over sizes of at least 6 |
| Trips.InsightsDistributions | data_processor.py:158-159 | both distributions are true tallies of every value, summing to the total |
| Trips.InsightsDistributionsAscending | data_processor.py:158-159 | both distributions are in strictly ascending key order |
| Trips.InsightsTopLists | data_processor.py:156-157 | at most 10 distinct names each, with true counts, in non-increasing count |
| Trips.InsightsTopPickupsComplete | data_processor.py:156 | a pickup name left off the list means the list is full and the name is no more frequent than the tenth |
| Trips.InsightsTopDropoffsComplete | data_processor.py:157 | the same for dropoffs |
| Trips.PeakHourCorrect | data_processor.py:153 | the peak hour has maximal count and is the smallest such hour |
| Trips.InsightsAverageBounds | data_processor.py:152 | with passenger counts in 1..20 the average is in 1..20 |
| Trips.LocationStatsCounts | data_processor.py:196-215 | each count is the number of records whose main name contains the fragment ignoring case, 0 for an excluded side |
| Trips.PeakHoursCorrect | data_processor.py:213-214 | the peak list is exactly the modal hours, ascending, empty only for no data |
| Trips.LocationStatsEmptySide | data_processor.py:211-214 | an empty side has average 0 and no peak hours |
| Trips.PatternDataCorrect | data_processor.py:219-222 | a missing or zero filter keeps every trip, another keeps exactly the trips of at least that many passengers |
| Trips.TimePatternsTotals | data_processor.py:224-226 | hourly, daily and period counts each sum to the number of selected trips |
| Trips.TimePatternsHourly | data_processor.py:224 | the hourly counts are a true tally of the selected trips' hours in ascending hour order |
| Trips.TimePatternsCategories | data_processor.py:226 | every period counted is one of the five time labels |
| Trips.QueryTestMeaning | data_processor.py:166-194 | a record passes exactly when every present filter accepts it |
| Trips.QueryStep | data_processor.py:170-192 | each narrowing step applies one filter, and an absent filter changes nothing |
| Trips.QueryNarrows | data_processor.py:166-194 | adding filters only narrows the result |
| Trips.DataProcessor.constructor | data_processor.py:10-15 | the store keeps the records and caches the insights computed from them, so it is valid |
| Trips.DataProcessor.QueryData | data_processor.py:166-194 | the records passing every present filter, in original order |
| Trips.DataProcessor.NarrowBy | data_processor.py:170-192 | one filter step of the narrowing loop |
| Patterns.RemoveFromNoMatch | chatbot_engine.py:94-95 | a substitution whose pattern matches nowhere leaves the text unchanged |
| Patterns.MonthCutsWordFront | chatbot_engine.py:63 | the month pattern has no word boundary: " may" is cut off the front of " mayfair" |
| Patterns.CleanLocation | chatbot_engine.py:90-99 | the cleaned location has single spaces between words and no space at either end |
| Patterns.CleanLocationFromQuery | chatbot_engine.py:90-99 | the loop applies the seven substitutions in order, then collapses and trims |
| Patterns.PhraseSearch | chatbot_engine.py:24-58 | a one-word keyword pattern hits exactly when the lower-cased question contains the word |
| Patterns.FirstNumber | chatbot_engine.py:115-117 | no number exactly when the question has no digit |
| Patterns.FindLocation | chatbot_engine.py:103-111 | the first location pattern whose cleaned capture is non-empty, and that capture |
| Patterns.FirstMatching | chatbot_engine.py:113-147 | the first pattern of a table that hits, and its groups |
| Patterns.ParseQuery | chatbot_engine.py:101-149 | the classification loop computes the ordered-table classification |
| Patterns.ClassifyCategories | chatbot_engine.py:101-149 | the type is the first category in fixed order with a hit, general stats otherwise, never the fallback |
| Patterns.ClassifyLocation | chatbot_engine.py:103-111 | a location question carries the non-empty cleaned capture of the first pattern that leaves one, and nothing else |
| Patterns.ClassifyGroupSize | chatbot_engine.py:120-126 | a group-size question carries a size exactly when one of the three numeric patterns matches |
| Patterns.ClassifyTopLocations | chatbot_engine.py:128-135 | a top-locations question carries only a side: pickup iff "pickup" or "pick up" occurs, else dropoff iff "drop" occurs, else both |
| Patterns.DemographicsNeedAges | chatbot_engine.py:137-143 | only the age-range pattern can make a demographics question |
| Patterns.ClassifyDemographics | chatbot_engine.py:137-143 | a demographics question always carries both captured ages |
| Chatbot.CombinedCountsCorrect | chatbot_engine.py:153-160 | the merged dict holds each name once, counting its pickups plus its dropoffs |
| Chatbot.MergeCounts | chatbot_engine.py:156-160 | the merge loop adds each value count into the dict |
| Chatbot.CollectMatches | chatbot_engine.py:165-180 | a tier's loop collects exactly the dict entries passing its test, in order |
| Chatbot.ExactTierFirst | chatbot_engine.py:165-167 | with an exact match, every match is exact |
| Chatbot.PartialTierNext | chatbot_engine.py:170-173 | with no exact but some partial match, every match is partial in one direction or the other |
| Chatbot.WordTierLast | chatbot_engine.py:176-181 | otherwise every match shares a word longer than 2 with the query |
| Chatbot.TierMatchesEmpty | chatbot_engine.py:163-181 | nothing is found exactly when no name passes any tier |
| Chatbot.FuzzyMatchesCorrect | chatbot_engine.py:183-184 | at most 5 distinct names of the data with true combined counts, in non-increasing count |
| Chatbot.FuzzyMatchCount | chatbot_engine.py:156-160 | each match's count is the name's pickups plus dropoffs |
| Chatbot.FuzzyMatchesOrder | chatbot_engine.py:183-184 | the sort is stable (equal counts keep discovery order) and the result is its top |
| Chatbot.FetiiChatbot.FuzzySearchLocation | chatbot_engine.py:151-185 | the resolver method computes the fuzzy matches: at most 5, true counts, non-increasing |
| Chatbot.OwnNameCounts | data_processor.py:196-205 | a name that occurs in the data is contained in some trip's pickup or dropoff name |
| Chatbot.OwnNameMatches | data_processor.py:196-205 | a name that occurs in the data has non-zero stats |
| Chatbot.LocationDirectCase | chatbot_engine.py:227-229 | direct hits report the title-cased name with the direct stats |
| Chatbot.LocationNoMatchCase | chatbot_engine.py:225-226 | no direct hit and no fuzzy match answer "not found" |
| Chatbot.LocationClosestCase | chatbot_engine.py:210-218 | otherwise the best match has trips and is reported as the closest match |
| Chatbot.BestMatchHasTrips | chatbot_engine.py:213-217 | the first fuzzy match has non-zero stats |
| Chatbot.LocationNeverSuggests | chatbot_engine.py:219-224 | the suggestions branch is never taken |
| Chatbot.NotFoundWhenNoHit | chatbot_engine.py:208-226 | not found iff the direct pickup and dropoff counts are both zero and the resolver finds nothing |
| Chatbot.LocationNotFoundExactly | chatbot_engine.py:208-226 | not found iff no pickup and no dropoff contains the location and the resolver finds nothing |
| Chatbot.LocationReportContents | chatbot_engine.py:243-251 | a report carries its name and stats, the share (pickups+dropoffs)/total×100, and the period note iff a period word occurs |
| Chatbot.LocationReportShape | chatbot_engine.py:205-253 | each answer is a report or not found; what a report names and whose stats it shows, in each branch |
| Chatbot.FetiiChatbot.HandleLocationStats | chatbot_engine.py:205-253 | the handler method computes the location answer |
| Chatbot.TimeAnswerFails | chatbot_engine.py:276-278 | the time handler raises exactly when no trip passes the group filter |
| Chatbot.TimeAnswerHours | chatbot_engine.py:265-278 | at most 5 hours with true counts, non-increasing, ties by ascending hour; the peak is at least as busy as any hour; the group note iff the filter is truthy |
| Chatbot.TimeAnswerPeriods | chatbot_engine.py:272-274 | every period once with its true count, non-increasing |
| Chatbot.GroupAnswerCount | chatbot_engine.py:287-296 | default threshold 6; the count is the trips of at least that many passengers, and the share is its percentage |
| Chatbot.GroupAnswerBreakdown | chatbot_engine.py:299-302 | at most 8 sizes, all at least the threshold, true counts, non-increasing, ties by ascending size |
| Chatbot.TopAnswerCorrect | chatbot_engine.py:311-334 | each side listed iff asked for, at most 8 names with true counts, non-increasing; the leader is a pickup no name outnumbers |
| Chatbot.TopQuestionSides | chatbot_engine.py:311-334 | for a top-locations question, pickups and the leader are listed iff it says "pickup"/"pick up" or does not say "drop", dropoffs iff it does not say "pickup"/"pick up" |
| Chatbot.TopNonEmpty | chatbot_engine.py:330-332 | a non-empty store has a first pickup and a first dropoff, each its side's most frequent name |
| Chatbot.FirstContaining | chatbot_engine.py:348-352 | the first top dropoff whose name contains the spot, ignoring case, and none before it |
| Chatbot.SpotsFound | chatbot_engine.py:347-352 | at most one entry per spot, each a top dropoff |
| Chatbot.SpotsFoundCount | chatbot_engine.py:347-352 | one entry exactly for each spot some top dropoff names |
| Chatbot.SpotsFoundLists | chatbot_engine.py:347-352 | each named spot's first dropoff is listed |
| Chatbot.DemographicsAnswerSpots | chatbot_engine.py:337-358 | the asked (or default 18-24) ages, and one top dropoff per named entertainment spot |
| Chatbot.PopularSpots | chatbot_engine.py:347-352 | the nested loop with its break computes the spot list |
| Chatbot.FetiiChatbot.HandleDemographics | chatbot_engine.py:337-358 | the handler method computes the demographics answer |
| Chatbot.MostCommon | chatbot_engine.py:375-376 | the position of the first entry of maximal count |
| Chatbot.MostCommonSize | chatbot_engine.py:375-376 | over an ascending true tally: the smallest modal value, with its true count |
| Chatbot.OverviewCorrect | chatbot_engine.py:360-387 | the overview exists for a non-empty store; the commonest size is the smallest modal size; the two hotspots outnumber every name of their side |
| Chatbot.AnswerFailsOnlyForEmptyTimeData | chatbot_engine.py:187-203 | over a non-empty store only the time handler fails, exactly when no trip passes its filter |
| Chatbot.AnswerOfNeverFallsBack | chatbot_engine.py:187-203 | every question type but the unrecognised one gets an answer other than the fallback |
| Chatbot.RespondNeverFallsBack | chatbot_engine.py:187-203 | a question never gets the fallback |
| Chatbot.LocationReportAnswer | chatbot_engine.py:205-253 | a location question never gets the fallback |
| Chatbot.FetiiChatbot.GenerateResponse | chatbot_engine.py:187-203 | the dispatch method computes the handler's answer with the handlers' defaults |
| Chatbot.FetiiChatbot.constructor | chatbot_engine.py:11-68 | the store, the engine's pattern tables, and an empty log; valid exactly when the store is |
| Chatbot.FetiiChatbot.ProcessQuery | chatbot_engine.py:70-88 | logs the normalised question; on success also the answer, which it returns; on failure returns the apology and logs nothing more; over a valid store the apology comes exactly for a time question whose filter keeps no trip, and the fallback never |
| Chatbot.ProcessQueryAnswers | chatbot_engine.py:70-88 | over a non-empty store the apology comes exactly for a time question whose filter keeps no trip; never the fallback |
| Chatbot.FetiiChatbot.GetConversationHistory | chatbot_engine.py:412-414 | returns the log |
| Chatbot.FetiiChatbot.ClearHistory | chatbot_engine.py:416-417 | the log is empty afterwards and a valid chatbot stays valid |

## Left out

- app.py and visualizations.py are not part of this model: they are UI and plotting.
- CSV loading, sample-data synthesis and `pd.to_datetime` are left out. The store starts from cleaned records. The validator receives date validity as a predicate parameter.
- Text rendering is left out: the f-string text, HTML tags, thousands separators and `{:.1f}` rounding. Answers carry the values the text shows.
- The fallback help text is left out; its answer is the constant `Fallback`.
- The insights hint lines with fixed wording are left out, for example "Late night hours ... younger demographics".
- The exception text is left out: `Apology` stands for the fixed apology.
- Averages and percentages are exact reals, not floating point. Integer counts are unbounded, matching Python.
- The location capture patterns (chatbot_engine.py:18-22) have lazy groups and optional trailing periods. They are parameters of the constructor (`LocationPattern`). The classifier's ordering and fall-through over them is proved.
- Regex `.` does not cross a newline. The models of `.*` ignore this, so questions containing newlines are not modelled exactly.
- `str.contains` treats the fragment as a regex. It is modelled as a literal case-insensitive substring test, exact for fragments without regex metacharacters.
  - Because of this, the location handler's suggestion branch is unreachable in the model (LocationNeverSuggests).
  - In the source it is reachable only for names holding metacharacters.
- `value_counts` order among equal counts is not specified by pandas. It is modelled as first appearance.
- Case mapping (`lower`, `title`) and `isspace` are ASCII only.
- `calculate_distance`, `format_number`, `generate_insights`, `create_summary_stats`, `create_export_data`, `parse_date_string` and `get_color_palette` of utils.py are left out: they are floating point, formatting, date parsing or serialisation.
- Trips.DataProcessor.constructor: requires at least one record, and so does Trips.InsightsOf. On an empty frame the source raises `IndexError` at `mode().iloc[0]` (data_processor.py:153), which the `except FileNotFoundError` at data_processor.py:29 does not catch, so no store is built.
- `_calculate_insights` (data_processor.py:148-160) is not a separate method. The source runs it, like `load_and_process_data`, only while the store is built, so the constructor caches `InsightsOf` of the records and both fields are constants. Calling `load_and_process_data` again on a live store is not modelled.
- Python 3's `\d`, `\w` and `\s` also match non-ASCII digits, letters and spaces. DigitRunLen, WordCharRunLen and SpaceRunLen are ASCII only.
- Chatbot.FetiiChatbot.GetConversationHistory returns the log as a value. The source returns the live list (chatbot_engine.py:412-414), so a caller's later changes to it would alter the log; that aliasing is not modelled.
- The `daily_counts` of `get_time_patterns` is computed, but no handler reads it, and only its total is proved.

## Findings

| source | as written | input that shows it | evidently intended | confidence | as-written member | corrected member |
|---|---|---|---|---|---|---|
| utils.py:17-22 | the name is title-cased before the suffix test, so ", Austin, TX" and ", USA" can never match (title case gives "Tx" and "Usa") | "x, austin, tx" is cleaned to "X, Austin, Tx" | every listed suffix is removed, giving "X" | not executed | Utils.CleanLocationNameKeepsTexasSuffix | Utils.CleanLocationNameCorrectedDropsTexas |
