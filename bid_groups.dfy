/** Bid groups (src/lib/bidGroups.ts): an ordered list of UI commands under a
    group id and rank, turned into engine commands with the builder and
    previewed against trips with the matcher. */
module BidGroups {
  import opened Wrappers
  import opened Text
  import opened Sequences
  import opened RuleTypes
  import opened TripMatching
  import opened BidCommandBuilder

  /** One JSS bid group. `isFinalFallback` and `note` are optional fields. */
  datatype BidGroup = BidGroup(id: string, name: string, rank: int, isFinalFallback: Option<bool>,
                               commands: seq<BidCommandInput>, note: Option<string>)

  /** What the preview shows for one command. */
  datatype CommandSummary = CommandSummary(input: BidCommandInput, engineCommand: TripPropertyCommand,
                                           matchedTrips: seq<Trip>)

  datatype BidGroupPreview = BidGroupPreview(group: BidGroup, commands: seq<CommandSummary>)

  /** The index of the first command the builder rejects, or the length of
      the list when it rejects none. */
  function FirstMissing(inputs: seq<BidCommandInput>): (i: nat)
    ensures i <= |inputs|
    ensures forall j :: 0 <= j < i ==> !MissingDays(inputs[j])
    ensures i < |inputs| ==> MissingDays(inputs[i])
    decreases |inputs|
  {
    if inputs == [] || MissingDays(inputs[0]) then 0 else 1 + FirstMissing(inputs[1..])
  }

  /** `buildTripPropertyCommandsForGroup`: `map` over the group's commands,
      which throws the builder's error at the first command that is missing
      its days. So it fails exactly when some command does, with the first
      such command's message, and otherwise gives one engine command per UI
      command, in the same order and with the same date range. */
  function BuildTripPropertyCommandsForGroup(group: BidGroup, dateRange: Option<DateRange>)
    : (r: Result<seq<TripPropertyCommand>, string>)
    ensures r.Ok? <==> forall i :: 0 <= i < |group.commands| ==> !MissingDays(group.commands[i])
    ensures r.Err? ==> r.error == MissingDaysMessage(group.commands[FirstMissing(group.commands)].lengthOperator)
    ensures r.Ok? ==> |r.value| == |group.commands|
    ensures r.Ok? ==> forall i :: 0 <= i < |group.commands| ==>
                        BuildTripPropertyCommand(group.commands[i], dateRange) == Ok(r.value[i])
                        && r.value[i].dateRange == dateRange
  {
    var inputs := group.commands;
    var k := FirstMissing(inputs);
    if k < |inputs| then Err(BuildTripPropertyCommand(inputs[k], dateRange).error)
    else Ok(seq(|inputs|, i requires 0 <= i < |inputs| => BuildTripPropertyCommand(inputs[i], dateRange).value))
  }

  /** `engineCommands.map((engineCommand, index) => ...)`. */
  function Summaries(inputs: seq<BidCommandInput>, engine: seq<TripPropertyCommand>, trips: seq<Trip>)
    : (r: seq<CommandSummary>)
    requires |inputs| == |engine|
    ensures |r| == |engine|
    ensures forall i :: 0 <= i < |r| ==> IsSubsequence(r[i].matchedTrips, trips)
  {
    seq(|engine|, i requires 0 <= i < |engine| => CommandSummary(inputs[i], engine[i], TripsAffectedByCommand(engine[i], trips)))
  }

  /** `previewBidGroupOnTrips`: the group unchanged, and per command, aligned
      with the group's list, its input, its engine command and the trips the
      matcher selects for it, which keep the order of `trips`. It fails when
      the group does not build. */
  function PreviewBidGroupOnTrips(group: BidGroup, trips: seq<Trip>, dateRange: Option<DateRange>)
    : (r: Result<BidGroupPreview, string>)
    ensures r.Ok? <==> BuildTripPropertyCommandsForGroup(group, dateRange).Ok?
    ensures r.Err? ==> r.error == BuildTripPropertyCommandsForGroup(group, dateRange).error
    ensures r.Ok? ==> r.value.group == group && |r.value.commands| == |group.commands|
    ensures r.Ok? ==> forall i :: 0 <= i < |group.commands| ==>
                        && r.value.commands[i].input == group.commands[i]
                        && BuildTripPropertyCommand(group.commands[i], dateRange) == Ok(r.value.commands[i].engineCommand)
                        && r.value.commands[i].matchedTrips == TripsAffectedByCommand(r.value.commands[i].engineCommand, trips)
                        && IsSubsequence(r.value.commands[i].matchedTrips, trips)
  {
    match BuildTripPropertyCommandsForGroup(group, dateRange)
    case Err(e) => Err(e)
    case Ok(engine) => Ok(BidGroupPreview(group, Summaries(group.commands, engine, trips)))
  }

  // ---------------------------------------------------------------------------
  // The demo group
  // ---------------------------------------------------------------------------

  const DemoLengthInput: BidCommandInput :=
    TripLengthDaysInput(Award, Some(HPlus), Some(3), Some("Prefer 4-day trips (up to 3) into H+"),
                        Equal, Some(4), None, None)

  const DemoDestinationInput: BidCommandInput :=
    DestinationInput(Award, Some(HPlusPlus), Some(2), Some("Top priority MLE trips into H++"), "MLE")

  const DemoReportInput: BidCommandInput :=
    TripReportTimeInput(Avoid, None, None, Some("Avoid ultra-early reports before 07:00"), EarlierThan, "07:00")

  /** `demo777IdealGroup`. */
  const Demo777IdealGroup: BidGroup :=
    BidGroup("demo-777-ideal", "Group 1 \U{2013} Ideal 777 month", 1, Some(false),
             [DemoLengthInput, DemoDestinationInput, DemoReportInput], None)

  /** The demo group builds, in order, into AWARD TRIP_LENGTH "4D" into H+
      up to 3, AWARD DESTINATION "MLE" into H++ up to 2, and AVOID
      TRIP_REPORT_TIME "< 07:00" without a pool. */
  lemma {:induction false} DemoGroupBuilds(dateRange: Option<DateRange>)
    ensures BuildTripPropertyCommandsForGroup(Demo777IdealGroup, dateRange) == Ok([
              TripPropertyCommand(Award, TripLength, Some("4D"), dateRange, Some(HPlus), Some(3),
                                  Some("Prefer 4-day trips (up to 3) into H+")),
              TripPropertyCommand(Award, Destination, Some("MLE"), dateRange, Some(HPlusPlus), Some(2),
                                  Some("Top priority MLE trips into H++")),
              TripPropertyCommand(Avoid, TripReportTime, Some("< 07:00"), dateRange, None, None,
                                  Some("Avoid ultra-early reports before 07:00"))])
  {
    DemoLengthBuilds(dateRange);
    DemoDestinationBuilds(dateRange);
    DemoReportBuilds(dateRange);
    BuildsThree(Demo777IdealGroup, dateRange,
                TripPropertyCommand(Award, TripLength, Some("4D"), dateRange, Some(HPlus), Some(3),
                                    Some("Prefer 4-day trips (up to 3) into H+")),
                TripPropertyCommand(Award, Destination, Some("MLE"), dateRange, Some(HPlusPlus), Some(2),
                                    Some("Top priority MLE trips into H++")),
                TripPropertyCommand(Avoid, TripReportTime, Some("< 07:00"), dateRange, None, None,
                                    Some("Avoid ultra-early reports before 07:00")));
  }

  /** A group of three commands that each build gives those three engine
      commands. */
  lemma {:induction false} BuildsThree(group: BidGroup, dateRange: Option<DateRange>,
                                       a: TripPropertyCommand, b: TripPropertyCommand, c: TripPropertyCommand)
    requires |group.commands| == 3
    requires BuildTripPropertyCommand(group.commands[0], dateRange) == Ok(a)
    requires BuildTripPropertyCommand(group.commands[1], dateRange) == Ok(b)
    requires BuildTripPropertyCommand(group.commands[2], dateRange) == Ok(c)
    ensures BuildTripPropertyCommandsForGroup(group, dateRange) == Ok([a, b, c])
  {
    var r := BuildTripPropertyCommandsForGroup(group, dateRange);
    assert r.Ok? by {
      assert !MissingDays(group.commands[0]) && !MissingDays(group.commands[1]) && !MissingDays(group.commands[2]);
      forall i | 0 <= i < 3 ensures !MissingDays(group.commands[i]) {
        assert i == 0 || i == 1 || i == 2;
      }
    }
    assert r.value == [r.value[0], r.value[1], r.value[2]];
  }

  lemma {:induction false} DemoLengthBuilds(dateRange: Option<DateRange>)
    ensures BuildTripPropertyCommand(DemoLengthInput, dateRange)
            == Ok(TripPropertyCommand(Award, TripLength, Some("4D"), dateRange, Some(HPlus), Some(3),
                                      Some("Prefer 4-day trips (up to 3) into H+")))
  {
    assert IntToString(4) == "4";
    assert "4" + "D" == "4D";
  }

  lemma {:induction false} DemoDestinationBuilds(dateRange: Option<DateRange>)
    ensures BuildTripPropertyCommand(DemoDestinationInput, dateRange)
            == Ok(TripPropertyCommand(Award, Destination, Some("MLE"), dateRange, Some(HPlusPlus), Some(2),
                                      Some("Top priority MLE trips into H++")))
  {
    TrimNoop("MLE");
    assert ToUpper("MLE") == "MLE";
  }

  lemma {:induction false} DemoReportBuilds(dateRange: Option<DateRange>)
    ensures BuildTripPropertyCommand(DemoReportInput, dateRange)
            == Ok(TripPropertyCommand(Avoid, TripReportTime, Some("< 07:00"), dateRange, None, None,
                                      Some("Avoid ultra-early reports before 07:00")))
  {
    TrimNoop("07:00");
    assert "<" + " " + "07:00" == "< 07:00";
  }
}
