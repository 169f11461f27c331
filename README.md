# Trip-bidding rule engine, modelled in Dafny

This project models the rule engine of a bidding assistant for airline
pilots, following the JSS bidding conventions. The engine works with
trip-property commands such as "AWARD DESTINATION MLE into pool H++, at most
twice" or "AVOID TRIP_REPORT_TIME < 07:00". The model covers six things:

- how the UI-level command inputs become engine commands
  (`buildTripPropertyCommand`);
- how an engine command selects trips from a catalogue
  (`getTripsAffectedByCommand`);
- how a preference profile is compiled into a short, ranked, de-duplicated
  list of commands (`buildSimpleBidGroup`);
- how high-level preferences expand into bid groups
  (`buildBidGroupsFromPreferences`);
- how a group is built and previewed against trips;
- the two text renderings of a command: the compact one of
  `renderTripPropertyCommand` and the JSS bid-line one of
  `formatBidCommandInputToJss`.

The modules follow the source files:

| module | file | source |
|---|---|---|
| `Wrappers` | wrappers.dfy | `Option` and `Result` |
| `Text` | text.dfy | the string operations the engine uses: ASCII `trim`, `toUpperCase`, `includes`, `join(" ")`, `padStart`, and decimal `${n}` with its inverse |
| `Sequences` | sequences.dfy | order-preserving subsequences |
| `RuleTypes` | rule_types.dfy | src/rules/types.ts, plus the `Trip` record of src/data/sampleTrips.ts |
| `TripMatching` | trip_matching.dfy | src/lib/tripMatching.ts |
| `BidCommandBuilder` | bid_command_builder.dfy | src/lib/bidCommandBuilder.ts |
| `BidBuilder` | bid_builder.dfy | src/lib/bidBuilder.ts, together with the profile fields it reads |
| `BidGroups` | bid_groups.dfy | src/lib/bidGroups.ts |
| `Preferences` | preferences.dfy | src/lib/preferences.ts |
| `JssCommands` | jss_commands.dfy | src/rules/jssCommands.ts |
| `JssTripPropertyFormatter` | jss_trip_property_formatter.dfy | src/lib/jssTripPropertyFormatter.ts |
| `SampleTrips` | sample_trips.dfy | the three sample trips of src/data/sampleTrips.ts |

How the source became Dafny:

- **Regular expressions.** Each one the matcher uses becomes a hand-written
  scanner that makes the same choices, with a lemma that characterises what
  the scanner accepts:
  - the anchored trip-length patterns `^(\d+)D$`, `^(\d+)-(\d+)D$`,
    `^>=\s*(\d+)D$` and `^<=\s*(\d+)D$`;
  - the unanchored clock and layover patterns `([<>]=?)\s*(\d{1,k}:\d{2})`
    and `([<>]=?)\s*(\d{1,3})(?::(\d{2}))?`. These are modelled as a
    leftmost search over start positions, with greedy digit runs and
    backtracking from k digits down to 1.
- **Pure logic** becomes functions. Where the source builds its result
  step by step, the model is a method proved equal to a specification
  function:
  - the conditional pushes of `renderTripPropertyCommand` and of the three
    `format*Command` functions become straight-line methods;
  - `formatBidCommandInputToJss` becomes a method that dispatches on the
    kind, as the source does;
  - `buildTripLengthCommandFromPreference` becomes a method that reassigns
    its locals as the source's `let` variables are;
  - loops with invariants appear only where the source loops: the
    `forEach` calls, the `Map` loop and the closing `.map` of
    `buildSimpleBidGroup`, and the
    `forEach` of `buildBidGroupsFromPreferences`.
- **The compiler's guarantees** are proved as lemmas about those
  specification functions:
  - the output has at most `maxLines` commands;
  - no two output commands share a de-duplication key;
  - the output is ordered by score, and equal scores keep generation order;
  - a pool appears only on AWARD commands;
  - each candidate selects exactly the trips its rule describes.
- **Thrown errors** become `Result` values. The missing-days errors of the
  command builder are `Err` with the same message, and a bid group fails to
  build exactly when one of its commands does.

Where the TypeScript types and the code disagree, the model follows the code:

- `preferences.ts` assigns the pool `"N"`, which is not one of the six pools
  declared in `src/rules/types.ts`. The model adds `N` to `TripPool`.
- `bidBuilder.ts` reads profile fields that the declared `PreferenceProfile`
  does not have:
  - `destinationRules` and `tripLengthRules`;
  - `earliestPreferredReportTime` and `latestPreferredReportTime`.

  The model's `PreferenceProfile` has them: the rule arrays as sequences, an
  absent array being the empty one, and the report times as optional
  strings.
- The matcher reads `trip.layoverHoursEstimate` and `trip.reportTimeLocal`,
  which the declared `Trip` type does not have. The model's `Trip` carries
  them as optional fields, as the code's `typeof` and truthiness checks
  treat them.

## Model

| member | source | states |
|---|---|---|
| Text.IntToString | src/lib/bidCommandBuilder.ts:123 | `${n}` for an integer is non-empty, has no surrounding space, is the decimal digits of a non-negative n and "-" followed by the digits of -n otherwise |
| Text.DigitsValueOfNatToString | src/lib/tripMatching.ts:34 | reading back the decimal text of n with `Number` gives n |
| Text.NatToStringOfDigitsValue | src/lib/tripMatching.ts:34 | a canonical digit string (no leading zero) is the decimal text of its own value |
| Text.Trim | src/lib/tripMatching.ts:29 | `trim()` gives the maximal slice with no leading or trailing whitespace: only whitespace was removed on either side and the result starts and ends with a non-space |
| Text.TrimNoop | src/lib/bidCommandBuilder.ts:178 | trimming a text that already starts and ends with a non-space leaves it unchanged |
| Text.ToUpper | src/lib/tripMatching.ts:21 | `toUpperCase()` keeps the length, turns each lower-case letter a-z into its capital (code point minus 32), leaves every other character as it is, and leaves no lower-case letter in the result |
| Text.ToUpperIdempotent | src/lib/tripMatching.ts:21-23 | upper-casing twice is upper-casing once, so an already upper-cased qualifier is compared unchanged |
| Text.IncludesIffSlice | src/lib/tripMatching.ts:23 | `includes` holds exactly when the text occurs at some position |
| Text.SplitJoinWithSpaces | src/rules/jssCommands.ts:31 | splitting `parts.join(" ")` on spaces gives the parts back when no part contains a space |
| Text.PadStart | src/lib/jssTripPropertyFormatter.ts:23 | `padStart(width, c)` leaves a long enough text unchanged and otherwise puts copies of c in front to reach the width |
| RuleTypes.PoolText | src/rules/types.ts:4-10 | every pool is written as a non-empty L/N/H token such as "H++" |
| TripMatching.ParseHoursMinutesSpec | src/lib/tripMatching.ts:5-12 | `parseHoursMinutesToMinutes` accepts exactly the texts of 1 to 3 digits, ':' and 2 digits, and then gives hours*60 + minutes |
| TripMatching.ParseClockText | src/lib/tripMatching.ts:5-12 | the value of a well-formed clock text, as a guarantee for each input |
| TripMatching.ClockEdgeCases | src/lib/tripMatching.ts:6-11 | minutes are not range-checked ("07:75" is 495), and "7:5" and "1234:00" are rejected |
| TripMatching.OperatorAt | src/lib/tripMatching.ts:67 | `[<>]=?` reads the longest of "<", "<=", ">", ">=" at a position |
| TripMatching.OperatorAtReads | src/lib/tripMatching.ts:67 | an operator is read exactly when `<` or `>` stands at the position, and it takes two characters exactly when `=` follows |
| TripMatching.SkipSpaces | src/lib/tripMatching.ts:67 | `\s*` consumes the maximal run of whitespace |
| TripMatching.GreedyDigitsAt | src/lib/tripMatching.ts:94 | `\d{1,3}` takes the longest digit run of at most 3 |
| TripMatching.LeftmostMatch | src/lib/tripMatching.ts:67 | an unanchored match is found at the first position where the pattern matches |
| TripMatching.LeftmostMatchIsFirst | src/lib/tripMatching.ts:67 | no position before the one returned matches the pattern |
| TripMatching.CreditLeftmostOperator | src/lib/tripMatching.ts:67-71 | in ">= <9:30" the bare ">=" is skipped and the credit bound is "< 9:30", that is 570 minutes |
| TripMatching.LayoverFourDigitHours | src/lib/tripMatching.ts:94-101 | in "> 1234" the layover hours are the first three digits, a bound of 123 hours |
| TripMatching.ParseTripLength | src/lib/tripMatching.ts:29-62 | only one of the four trip-length shapes (exact, range, at least, at most) is ever returned |
| TripMatching.ExactFormAccepted | src/lib/tripMatching.ts:32-36 | "dD" is read as exactly d days |
| TripMatching.RangeFormAccepted | src/lib/tripMatching.ts:39-46 | "a-bD" is read as a to b days |
| TripMatching.AtLeastFormAccepted | src/lib/tripMatching.ts:49-53 | ">=", any whitespace, then "dD" is read as at least d days |
| TripMatching.AtMostFormAccepted | src/lib/tripMatching.ts:56-60 | "<=", any whitespace, then "dD" is read as at most d days |
| TripMatching.ParseTripLengthSound | src/lib/tripMatching.ts:29-62 | whatever is accepted has one of the four textual forms, with the returned numbers equal to its digit values |
| TripMatching.TripLengthOtherTextSelectsNothing | src/lib/tripMatching.ts:62 | a trip-length qualifier of any other form selects no trip |
| TripMatching.FilterTrips | src/lib/tripMatching.ts:22 | `trips.filter` keeps exactly the trips that satisfy the criterion, in their original order |
| TripMatching.FilterTripsCounts | src/lib/tripMatching.ts:22 | the filter keeps every occurrence of a satisfying trip and drops every other |
| TripMatching.TripsAffectedByCommand | src/lib/tripMatching.ts:14-155 | the selection is a subsequence of the trips; an absent or empty qualifier, and the properties without a case, select nothing |
| TripMatching.DestinationSelects | src/lib/tripMatching.ts:19-25 | DESTINATION selects exactly the trips whose upper-cased route includes the upper-cased qualifier |
| TripMatching.TripLengthExactSelects | src/lib/tripMatching.ts:32-36 | an exact qualifier selects exactly the trips whose length equals the number |
| TripMatching.TripLengthRangeSelects | src/lib/tripMatching.ts:39-46 | a range qualifier selects exactly the trips whose length is between the bounds, inclusive |
| TripMatching.TripLengthAtLeastSelects | src/lib/tripMatching.ts:49-53 | ">= dD" selects exactly the trips of at least d days |
| TripMatching.TripLengthAtMostSelects | src/lib/tripMatching.ts:56-60 | "<= dD" selects exactly the trips of at most d days |
| TripMatching.CreditTimeSelects | src/lib/tripMatching.ts:65-90 | a credit qualifier such as "< 12:00" selects exactly the trips whose readable credit compares that way to the bound |
| TripMatching.UnreadableCreditNeverSelected | src/lib/tripMatching.ts:74-75 | a trip whose credit is not a clock text is never selected by a credit command |
| TripMatching.LayoverSelects | src/lib/tripMatching.ts:92-120 | a layover qualifier selects exactly the trips with an estimate whose minutes compare that way to hours*60 + minutes |
| TripMatching.MissingLayoverNeverSelected | src/lib/tripMatching.ts:104 | a trip without a layover estimate is never selected by a layover command |
| TripMatching.ReportTimeSelects | src/lib/tripMatching.ts:122-150 | a report qualifier with 1 or 2 hour digits selects exactly the trips whose readable report time compares that way to the bound |
| TripMatching.ReportClockSelects | src/lib/tripMatching.ts:122-150 | an operator, a space and a parseable time of at most 5 characters select by that bound |
| TripMatching.MissingReportTimeNeverSelected | src/lib/tripMatching.ts:131-135 | a trip without a readable report time is never selected by a report-time command |
| BidCommandBuilder.ResolveTripPool | src/lib/bidCommandBuilder.ts:82-85 | AWARD keeps the pool it is given and AVOID never carries one |
| BidCommandBuilder.TripLengthQualifier | src/lib/bidCommandBuilder.ts:118-147 | the qualifier fails exactly when the operator's days are missing, with that operator's message, and is otherwise a non-blank text ending in 'D' |
| BidCommandBuilder.BuildTripPropertyCommand | src/lib/bidCommandBuilder.ts:96-190 | it fails exactly on a trip-length input missing its days, with the source's message; otherwise verb, property, date range, limit and note are carried over and a pool only on AWARD |
| BidCommandBuilder.BuiltDestinationSelects | src/lib/bidCommandBuilder.ts:101-113 | the built DESTINATION command selects exactly the routes that include the trimmed, upper-cased destination, and nothing when that is blank |
| BidCommandBuilder.BuiltTripLengthSelects | src/lib/bidCommandBuilder.ts:115-158 | with non-negative days, the built TRIP_LENGTH command selects exactly the trips of the length the operator describes |
| BidCommandBuilder.BuiltExactSelects | src/lib/bidCommandBuilder.ts:123 | "nD" selects exactly the trips of n days |
| BidCommandBuilder.BuiltAtLeastSelects | src/lib/bidCommandBuilder.ts:130 | ">= nD" selects exactly the trips of at least n days |
| BidCommandBuilder.BuiltAtMostSelects | src/lib/bidCommandBuilder.ts:137 | "<= nD" selects exactly the trips of at most n days |
| BidCommandBuilder.BuiltRangeSelects | src/lib/bidCommandBuilder.ts:144 | "a-bD" selects exactly the trips from a to b days |
| BidCommandBuilder.NegativeQualifierRejected | src/lib/bidCommandBuilder.ts:118-147 | a qualifier written from a negative day count is not understood by the matcher |
| BidCommandBuilder.NegativeDaysSelectNothing | src/lib/bidCommandBuilder.ts:115-158 | a trip-length command built from negative days selects no trip |
| BidCommandBuilder.BuiltReportTimeSelects | src/lib/bidCommandBuilder.ts:160-190 | the built report-time command selects exactly the trips whose report time compares by the chosen operator to the trimmed time |
| BidBuilder.DescribeTripLengthRange | src/lib/bidBuilder.ts:14-19 | the description starts with the minimum days, followed by " days or more", "-day trips" or "–max-day trips" |
| BidBuilder.BuildTripLengthQualifier | src/lib/bidBuilder.ts:21-30 | the rule qualifier is a non-blank text ending in 'D' |
| BidBuilder.TripLengthQualifierAgrees | src/lib/bidBuilder.ts:21-30 | the open rule, the single length and the range are written like the command builder's AT_LEAST, EQUAL and BETWEEN |
| BidBuilder.DescribeDestinationRule | src/lib/bidBuilder.ts:32-35 | the label is the qualifier upper-cased: same length, no lower-case letter, other characters unchanged |
| BidBuilder.DestinationRuleCandidatesShape | src/lib/bidBuilder.ts:45-63 | rule i scores 110-2i as AWARD and 130-2i as AVOID, on the upper-cased qualifier; AWARD goes into the rule's pool or H, AVOID into none |
| BidBuilder.PreferredCandidatesShape | src/lib/bidBuilder.ts:66-83 | preferred destination i is an AWARD scoring 100-10i, into H++ for the first and H+ after |
| BidBuilder.AvoidCandidatesShape | src/lib/bidBuilder.ts:86-96 | every avoided destination is an AVOID scoring 120, without a pool |
| BidBuilder.TripLengthRuleCandidatesShape | src/lib/bidBuilder.ts:100-116 | trip-length rule i scores 80-3i with the rule's qualifier, into the rule's pool or H when it is an AWARD |
| BidBuilder.Insert | src/lib/bidBuilder.ts:194 | inserting into a descending list keeps it descending and adds exactly that element |
| BidBuilder.SortByScore | src/lib/bidBuilder.ts:194 | `sort((a, b) => b.score - a.score)` orders by descending score and is a permutation |
| BidBuilder.SortByScoreStable | src/lib/bidBuilder.ts:194 | the sort is stable: for every score, the commands with that score keep their order |
| BidBuilder.Dedup | src/lib/bidBuilder.ts:196-211 | keeping the first command per key leaves distinct keys, every key that was present, and only commands from the input |
| BidBuilder.DedupSorted | src/lib/bidBuilder.ts:196-211 | de-duplicating a sorted list keeps it sorted |
| BidBuilder.DedupSubsequence | src/lib/bidBuilder.ts:196-211 | the de-duplicated list keeps the input order (`Map` insertion order) |
| BidBuilder.DedupKeepsFirst | src/lib/bidBuilder.ts:206-208 | the first command with a given key is the one kept |
| BidBuilder.DedupKeepsBest | src/lib/bidBuilder.ts:194-211 | after sorting, the command kept for a key has the highest score among those with that key |
| BidBuilder.BuildSimpleBidGroup | src/lib/bidBuilder.ts:38-214 | the pushes, the sort, the `Map` loop and the slice compute exactly the specification `SimpleBidGroup` |
| BidBuilder.RankAndTrim | src/lib/bidBuilder.ts:193-213 | sorting, de-duplicating and slicing the candidates gives the commands of `Compile` |
| BidBuilder.PushDestinationCandidates | src/lib/bidBuilder.ts:45-97 | the destination step appends the rule candidates, or else the preferred and then the avoided candidates |
| BidBuilder.PushTripLengthCandidates | src/lib/bidBuilder.ts:100-140 | the trip-length step appends the rule candidates, or else the legacy 4D/3D pair when long trips are preferred |
| BidBuilder.PushTripLengthRules | src/lib/bidBuilder.ts:101-116 | the `forEach` over trip-length rules appends one candidate per rule, in rule order |
| BidBuilder.PushFacetCandidates | src/lib/bidBuilder.ts:142-191 | the layover, reserve and report-time steps append their candidates in source order when their flags are set |
| BidBuilder.KeepFirstPerKey | src/lib/bidBuilder.ts:196-211 | the `Map` loop computes `Dedup` |
| BidBuilder.CompileLength | src/lib/bidBuilder.ts:213 | the compiled list is a prefix of the sorted, de-duplicated candidates, of at most maxLines for maxLines >= 0, and all of them when maxLines is large enough |
| BidBuilder.CompileSortedDistinct | src/lib/bidBuilder.ts:193-213 | the compiled list is sorted, has distinct keys, holds only candidates, and keeps the best-scoring candidate per key |
| BidBuilder.CompileTiesInOrder | src/lib/bidBuilder.ts:193-213 | among commands with equal score, the output keeps the generation order |
| BidBuilder.CompileLeader | src/lib/bidBuilder.ts:193-213 | with at least one line, the first output is the first generated candidate with the top score |
| BidBuilder.OutputLength | src/lib/bidBuilder.ts:38-41 | the group has at most maxLines commands, and at most 5 by default |
| BidBuilder.OutputKeysDistinct | src/lib/bidBuilder.ts:196-211 | no two commands of the group share kind, property, qualifier and pool |
| BidBuilder.OutputOrderedByScore | src/lib/bidBuilder.ts:193-213 | the group is in descending score order, each command is a candidate, and each key keeps its best-scoring candidate |
| BidBuilder.OutputTiesKeepGenerationOrder | src/lib/bidBuilder.ts:194 | commands with equal score appear in the order they were generated |
| BidBuilder.OutputCommandsDistinct | src/lib/bidBuilder.ts:196-213 | in the command list the builder returns, no two commands share kind, property, qualifier and pool, and each is the command of one of the candidates |
| BidBuilder.CandidatesPoolOnlyOnAward | src/lib/bidBuilder.ts:57 | no generated AVOID candidate carries a pool |
| BidBuilder.OutputPoolOnlyOnAward | src/lib/bidBuilder.ts:38-214 | no AVOID command of the group carries a pool |
| BidBuilder.DestinationRulesSupersedeLists | src/lib/bidBuilder.ts:45-64 | when destination rules exist, the preferred and avoided lists have no effect on the group |
| BidBuilder.CandidatesAgree | src/lib/bidBuilder.ts:38-191 | two profiles with the same destination rules (and, when there are none, the same preferred and avoid lists), the same trip-length settings and the same facet settings give the same candidates |
| BidBuilder.FallbackScores | src/lib/bidBuilder.ts:64-191 | without destination rules, 120 is the top score, and exactly the avoided destinations have it |
| BidBuilder.AvoidDestinationLeads | src/lib/bidBuilder.ts:85-96 | without destination rules, the first avoided destination heads the group |
| BidBuilder.TripLengthRuleSelects | src/lib/bidBuilder.ts:100-116 | a rule candidate with non-negative days selects exactly the trips whose length is within the rule's range |
| BidBuilder.LayoverFacetSelects | src/lib/bidBuilder.ts:143-153 | ">= 36:00" selects exactly the trips with a layover estimate of at least 36 hours |
| BidBuilder.ReserveFacetSelects | src/lib/bidBuilder.ts:156-166 | "< 12:00" selects exactly the trips whose credit is below 720 minutes |
| BidBuilder.ReportFacetsSelect | src/lib/bidBuilder.ts:169-191 | the earliest- and latest-report candidates select exactly the trips reporting before, or after, the preferred time |
| BidGroups.FirstMissing | src/lib/bidGroups.ts:34-36 | the index at which `map` first throws: every earlier command builds, and the command there does not |
| BidGroups.BuildTripPropertyCommandsForGroup | src/lib/bidGroups.ts:30-37 | it fails exactly when some command does, with the first failing command's message; otherwise it gives one engine command per input, in order, with the group's date range |
| BidGroups.Summaries | src/lib/bidGroups.ts:63-72 | one summary per engine command, each holding trips that keep the catalogue's order |
| BidGroups.PreviewBidGroupOnTrips | src/lib/bidGroups.ts:56-78 | the preview fails exactly when the group does not build; otherwise it holds the group unchanged and, per command, its input, its engine command and the trips that command selects |
| BidGroups.DemoGroupBuilds | src/lib/bidGroups.ts:84-118 | the demo group builds into AWARD TRIP_LENGTH "4D" [H+] up to 3, AWARD DESTINATION "MLE" [H++] up to 2, and AVOID TRIP_REPORT_TIME "< 07:00" |
| BidGroups.BuildsThree | src/lib/bidGroups.ts:30-37 | a three-command group whose commands each build gives those three engine commands |
| SampleTrips.MleSelectsOnly7024 | src/data/sampleTrips.ts:17-51 | a DESTINATION "MLE" command selects only trip 7024 from the sample catalogue |
| SampleTrips.NoMleOn | src/lib/tripMatching.ts:21-23 | a route with no 'M' in either case is never selected for "MLE" |
| Preferences.TripLengthCommandFor | src/lib/preferences.ts:140-165 | each preference gives an AWARD trip-length input with a pool, whose days are present and non-negative |
| Preferences.BuildTripLengthCommandFromPreference | src/lib/preferences.ts:129-189 | the defaults reassigned per case and the two object shapes give exactly the table `TripLengthCommandFor` |
| Preferences.TripLengthPreferenceSelects | src/lib/preferences.ts:140-165 | the built command selects exactly 3-day trips (mostly short), 3- to 4-day trips (balanced) or 4-day trips (mostly long) |
| Preferences.BuildReportTimeCommandFromPreference | src/lib/preferences.ts:191-205 | there is a command exactly when early reports are avoided and a non-empty time is given; it is AVOID EARLIER_THAN that time, without pool or limit, with the source's note |
| Preferences.ReportPreferenceSelects | src/lib/preferences.ts:191-205 | for a parseable time, the report command selects exactly the trips reporting earlier than that time, without a pool |
| Preferences.DestinationCommand | src/lib/preferences.ts:76-83 | each preferred destination becomes AWARD DESTINATION of its code into its priority pool, with its monthly cap as the limit |
| Preferences.DestinationPreferenceSelects | src/lib/preferences.ts:76-83 | the built destination command goes into the priority pool with the cap and selects the routes through the code |
| Preferences.Group1Commands | src/lib/preferences.ts:66-91 | group 1 is the trip-length command, then one command per preferred destination in order, then the report command when there is one; none is missing its days |
| Preferences.GroupsFromPreferences | src/lib/preferences.ts:60-123 | one or, with bank protection, two groups: "prefs-group-1" at rank 1, not final, then "prefs-bank-protect" at rank 99; only that last group is the final fallback |
| Preferences.BuildBidGroupsFromPreferences | src/lib/preferences.ts:60-123 | the pushes of the source compute exactly `GroupsFromPreferences` |
| Preferences.PreferenceGroupsBuild | src/lib/preferences.ts:60-123 | every group built from preferences turns into engine commands without error, one per input, and previews without error |
| Preferences.DefaultPreferencesGroups | src/lib/preferences.ts:40-52 | the 777 defaults give the balanced trip-length command and the 07:30 report avoidance in group 1, then the bank-protection group |
| Preferences.DefaultReportSelects | src/lib/preferences.ts:40-52 | the defaults' report command selects exactly the trips reporting before 07:30 (450 minutes) |
| JssCommands.PropertyAbbreviation | src/rules/jssCommands.ts:34-58 | every property has a non-blank abbreviation |
| JssCommands.PropertyAbbreviationInjective | src/rules/jssCommands.ts:36-57 | different properties have different abbreviations |
| JssCommands.PropertyToText | src/rules/jssCommands.ts:60 | the property text is the abbreviation, followed by a space and the qualifier when that is non-empty |
| JssCommands.RenderParts | src/rules/jssCommands.ts:6-29 | the parts start with the kind and the property text |
| JssCommands.RenderTripPropertyCommand | src/rules/jssCommands.ts:5-32 | the pushes and `join(" ").trim()` compute exactly `RenderedLine` |
| JssCommands.RenderedLineStarts | src/rules/jssCommands.ts:9-12 | every rendered line starts with "KIND ABBREVIATION" |
| JssCommands.RenderedLimitLast | src/rules/jssCommands.ts:27-29 | a limit adds " MAX n" at the very end of the line |
| JssCommands.AvoidIgnoresPool | src/rules/jssCommands.ts:22-24 | an AVOID line is the same whatever its pool |
| JssCommands.AwardShowsPool | src/rules/jssCommands.ts:22-24 | an AWARD with a pool shows "[pool]" just before the limit |
| JssCommands.NoteNotRendered | src/rules/jssCommands.ts:5-32 | the note never affects the line |
| JssCommands.EmptyQualifierNotRendered | src/rules/jssCommands.ts:60 | an empty qualifier renders like no qualifier |
| JssCommands.EmptyRangeNotRendered | src/rules/jssCommands.ts:15-19 | a date range with neither side set renders like no range |
| JssCommands.RangeWithOpenEnd | src/rules/jssCommands.ts:15-19 | a range with only a start renders as "from-" |
| JssCommands.RenderedExample | src/rules/jssCommands.ts:5-32 | an AWARD DESTINATION DXB into H++ with limit 2 renders as "AWARD DEST DXB [H++] MAX 2" |
| JssTripPropertyFormatter.LengthOperatorSymbol | src/lib/jssTripPropertyFormatter.ts:126-139 | every length operator is written as a single token, and "BETWEEN" only for BETWEEN |
| JssTripPropertyFormatter.TimeOperatorSymbol | src/lib/jssTripPropertyFormatter.ts:141-154 | every time operator is written as a single token |
| JssTripPropertyFormatter.TimeSymbolMatchesBuilder | src/lib/jssTripPropertyFormatter.ts:141-154 | the formatter writes each time operator with the same symbol the command builder puts in the qualifier |
| JssTripPropertyFormatter.TimeOperatorSymbolInjective | src/lib/jssTripPropertyFormatter.ts:141-154 | different time operators get different symbols |
| JssTripPropertyFormatter.GroupLabel | src/lib/jssTripPropertyFormatter.ts:23 | the group number is padded to two characters with '0' (so 0-9 become "00"-"09"), and is otherwise its own decimal text |
| JssTripPropertyFormatter.FormatDestinationCommand | src/lib/jssTripPropertyFormatter.ts:42-62 | the pushes and the join compute exactly the joined `FormatParts` of a destination input |
| JssTripPropertyFormatter.FormatTripLengthDaysCommand | src/lib/jssTripPropertyFormatter.ts:64-97 | the pushes and the join compute exactly the joined `FormatParts` of a trip-length input |
| JssTripPropertyFormatter.FormatTripReportTimeCommand | src/lib/jssTripPropertyFormatter.ts:99-120 | the pushes and the join compute exactly the joined `FormatParts` of a report-time input |
| JssTripPropertyFormatter.FormatBidCommandInputToJss | src/lib/jssTripPropertyFormatter.ts:19-39 | the dispatch on the input kind computes exactly `FormattedLine` |
| JssTripPropertyFormatter.FormattedLineTokens | src/lib/jssTripPropertyFormatter.ts:19-120 | when the raw operands have no space, splitting the line on spaces gives back exactly its tokens |
| JssTripPropertyFormatter.FormattedLineStarts | src/lib/jssTripPropertyFormatter.ts:46-49 | every line starts with "Gnn VERB KEYWORD" |
| JssTripPropertyFormatter.DestinationTokenRaw | src/lib/jssTripPropertyFormatter.ts:46-51 | the destination is written raw (neither trimmed nor upper-cased) as the fourth token |
| JssTripPropertyFormatter.LengthTokens | src/lib/jssTripPropertyFormatter.ts:74-86 | BETWEEN writes "BETWEEN min max", and the others write their symbol and the days |
| JssTripPropertyFormatter.MissingDaysFormatsNoOperands | src/lib/jssTripPropertyFormatter.ts:74-86 | an input missing its days is still formatted, without operands, while the builder rejects it |
| JssTripPropertyFormatter.PoolShownForEitherVerb | src/lib/jssTripPropertyFormatter.ts:53-55 | "POOL p" follows the operands for AVOID too, although the built AVOID command drops the pool |
| JssTripPropertyFormatter.LimitShownLast | src/lib/jssTripPropertyFormatter.ts:57-59 | a limit adds " LIMIT n" at the very end of the line |
| JssTripPropertyFormatter.NoPoolNoLimit | src/lib/jssTripPropertyFormatter.ts:53-59 | without pool and limit, the line is just the head and the operands |
| JssTripPropertyFormatter.ReportTokensMatchQualifier | src/lib/jssTripPropertyFormatter.ts:103-109 | for a trimmed time, the operator and time tokens joined by a space are the builder's report qualifier |
| JssTripPropertyFormatter.BoundTokensMatchQualifier | src/lib/jssTripPropertyFormatter.ts:83-86 | for AT_LEAST and AT_MOST, the symbol and days tokens, followed by "D", are the builder's qualifier |
| JssTripPropertyFormatter.FormattedExample | src/lib/jssTripPropertyFormatter.ts:19-62 | AWARD MLE into H in group 1 is "G01 AWARD DESTINATION MLE POOL H" |

## Left out

- The React pages under src/app, and the static data other than the three sample trips used for the MLE example. The `oliProfile` constant is left out too; only the profile fields the compiler reads are modelled.
- src/lib/bidCommandDefinitions.ts and src/types/bidding.ts: UI catalogue data and types that the core does not read.
- The identity and seniority fields of the profile, and the rule fields that nothing reads (`preferBackToBackTrips`, `minDaysOffPerMonth` and the like).
- Floating point. `layoverHoursEstimate` is taken to be a whole number of hours, so `layoverHoursEstimate * 60` is exact, and `Number(...)` of a digit run is read as its exact value. Digit runs long enough to lose precision as doubles are not modelled.
- Whole numbers. The JavaScript numbers `days`, `minDays`, `maxDays`, `limit`, `maxPerMonth`, `groupNumber`, `maxLines`, `rank`, `score` and `tripDays` are modelled as integers. A fractional value is not representable: `days: 3.5` would render "3.5D", which the trip-length matcher's digit patterns then reject, a fractional `groupNumber` would render with its decimal point, and `slice(0, 2.5)` would keep two lines. NaN and the infinities are not representable either.
- Unicode. `trim`, `\s` and `toUpperCase` are modelled on ASCII: whitespace is space, tab, line feed, vertical tab, form feed and carriage return, and upper-casing maps a-z only.
- `JSON.stringify` of the de-duplication key is modelled as a tuple of kind, property, qualifier and pool, which are equal exactly when their JSON texts are.
- The formatter's JSON fallback for unknown kinds (src/lib/jssTripPropertyFormatter.ts:35-37) and the builder's "Unsupported BidCommandInput kind" throw (src/lib/bidCommandBuilder.ts:192-196). The input datatype has exactly the three supported kinds, so neither can be reached.
- `Array.prototype.sort` is modelled as a stable insertion sort by descending score, as ECMAScript requires since 2019. The source has no sorting loop of its own; it calls the library sort.
- The `Map` of the de-duplication becomes a set of seen keys, plus the kept values in insertion order.
- The meaning of date ranges: they are carried through and rendered, and not interpreted.
- Preferences.BuildTripLengthCommandFromPreference: the source declares it `| null`, but it never returns null and the caller's `if (tripLengthCmd)` always pushes, so the model returns the input directly.
- The non-null assertions `cmd.destination!` and `cmd.time!` in the formatter are no-ops: those fields are plain strings in the model.
- Text.ToUpper: does not model the Unicode case mapping of `toUpperCase`, because the engine's qualifiers and routes are ASCII codes.
