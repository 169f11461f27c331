/** High-level pilot preferences and their expansion into bid groups
    (src/lib/preferences.ts): an "ideal month" group made of one trip-length
    command, one AWARD DESTINATION command per preferred destination and an
    optional report-time command, followed by an optional bank-protection
    group. */
module Preferences {
  import opened Wrappers
  import opened Text
  import opened RuleTypes
  import opened TripMatching
  import opened BidCommandBuilder
  import opened BidGroups

  datatype TripLengthPreference = MostlyShort | Balanced | MostlyLong

  /** A destination to award into the pool `priority`, at most `maxPerMonth`
      times when that is given. */
  datatype DestinationPreference = DestinationPreference(code: string, priority: TripPool, maxPerMonth: Option<int>)

  datatype ReportTimePreference = ReportTimePreference(avoidVeryEarly: bool, earliestPreferredReport: Option<string>)

  datatype BankProtectionPreference = BankProtectionPreference(enabled: bool)

  datatype Preferences = Preferences(tripLength: TripLengthPreference,
                                     preferredDestinations: seq<DestinationPreference>,
                                     reportTime: ReportTimePreference,
                                     bankProtection: BankProtectionPreference)

  /** `defaultPreferences777`. */
  function DefaultPreferences777(): Preferences {
    Preferences(Balanced, [], ReportTimePreference(true, Some("07:30")), BankProtectionPreference(true))
  }

  // ---------------------------------------------------------------------------
  // The commands a preference stands for
  // ---------------------------------------------------------------------------

  /** The trip-length command for each preference: EQUAL 3 days into H up to
      4, BETWEEN 3 and 4 days into N without a limit, or EQUAL 4 days into H+
      up to 4. Every one always builds, with non-negative days. */
  function TripLengthCommandFor(pref: TripLengthPreference): (r: BidCommandInput)
    ensures r.TripLengthDaysInput? && r.verb == Award && r.pool.Some?
    ensures !MissingDays(r) && DaysNonNegative(r)
  {
    match pref
    case MostlyShort =>
      TripLengthDaysInput(Award, Some(H), Some(4), Some("Prefer mostly 3-day trips (up to 4)"), Equal, Some(3), None, None)
    case Balanced =>
      TripLengthDaysInput(Award, Some(N), None, Some("Balanced mix of 3- and 4-day trips"), Between, None, Some(3), Some(4))
    case MostlyLong =>
      TripLengthDaysInput(Award, Some(HPlus), Some(4), Some("Prefer mostly 4-day trips (up to 4)"), Equal, Some(4), None, None)
  }

  /** `buildTripLengthCommandFromPreference`: defaults, reassigned per case,
      then one of two object shapes depending on the operator. */
  method BuildTripLengthCommandFromPreference(pref: TripLengthPreference) returns (cmd: BidCommandInput)
    ensures cmd == TripLengthCommandFor(pref)
  {
    var op := Equal;
    var days: Option<int> := None;
    var minDays: Option<int> := None;
    var maxDays: Option<int> := None;
    var pool := H;
    var limit: Option<int> := None;
    var note: string;
    match pref {
      case MostlyShort =>
        op := Equal;
        days := Some(3);
        pool := H;
        limit := Some(4);
        note := "Prefer mostly 3-day trips (up to 4)";
      case Balanced =>
        op := Between;
        minDays := Some(3);
        maxDays := Some(4);
        pool := N;
        limit := None;
        note := "Balanced mix of 3- and 4-day trips";
      case MostlyLong =>
        op := Equal;
        days := Some(4);
        pool := HPlus;
        limit := Some(4);
        note := "Prefer mostly 4-day trips (up to 4)";
    }
    if op == Between {
      cmd := TripLengthDaysInput(Award, Some(pool), limit, Some(note), op, None, minDays, maxDays);
    } else {
      cmd := TripLengthDaysInput(Award, Some(pool), limit, Some(note), op, days, None, None);
    }
  }

  /** The trip lengths each preference asks for. */
  predicate PreferredLength(pref: TripLengthPreference, d: int) {
    match pref
    case MostlyShort => d == 3
    case Balanced => 3 <= d <= 4
    case MostlyLong => d == 4
  }

  /** `buildReportTimeCommandFromPreference`: an AVOID EARLIER_THAN command
      without a pool or limit, exactly when early reports are to be avoided
      and a non-empty time is given. */
  function BuildReportTimeCommandFromPreference(pref: ReportTimePreference): (r: Option<BidCommandInput>)
    ensures r.Some? <==> pref.avoidVeryEarly && pref.earliestPreferredReport.Some? && pref.earliestPreferredReport.value != ""
    ensures r.Some? ==> && r.value.TripReportTimeInput?
                        && r.value.verb == Avoid && r.value.pool.None? && r.value.limit.None?
                        && r.value.timeOperator == EarlierThan
                        && r.value.time == pref.earliestPreferredReport.value
                        && r.value.note == Some("Avoid reports earlier than " + pref.earliestPreferredReport.value)
  {
    if !pref.avoidVeryEarly || pref.earliestPreferredReport.None? || pref.earliestPreferredReport.value == "" then None
    else
      var t := pref.earliestPreferredReport.value;
      Some(TripReportTimeInput(Avoid, None, None, Some("Avoid reports earlier than " + t), EarlierThan, t))
  }

  /** The AWARD DESTINATION command a destination preference becomes. */
  function DestinationCommand(d: DestinationPreference): (r: BidCommandInput)
    ensures r.DestinationInput? && r.verb == Award && r.destination == d.code
    ensures r.pool == Some(d.priority) && r.limit == d.maxPerMonth
  {
    DestinationInput(Award, Some(d.priority), d.maxPerMonth, Some("Prefer " + d.code + " into " + PoolText(d.priority)), d.code)
  }

  function DestinationCommands(ds: seq<DestinationPreference>): (r: seq<BidCommandInput>)
    ensures |r| == |ds|
    ensures forall j :: 0 <= j < |ds| ==> r[j] == DestinationCommand(ds[j])
  {
    seq(|ds|, j requires 0 <= j < |ds| => DestinationCommand(ds[j]))
  }

  function OptionToSeq<T>(o: Option<T>): (r: seq<T>)
    ensures |r| == (if o.Some? then 1 else 0)
    ensures o.Some? ==> r[0] == o.value
  {
    if o.Some? then [o.value] else []
  }

  // ---------------------------------------------------------------------------
  // The groups
  // ---------------------------------------------------------------------------

  /** The trip-length command followed by the destination commands. */
  function LengthAndDestinations(prefs: Preferences): (r: seq<BidCommandInput>)
    ensures |r| == 1 + |prefs.preferredDestinations|
    ensures r[0] == TripLengthCommandFor(prefs.tripLength)
    ensures forall j :: 0 <= j < |prefs.preferredDestinations| ==> r[1 + j] == DestinationCommand(prefs.preferredDestinations[j])
    ensures forall i :: 0 <= i < |r| ==> !MissingDays(r[i])
  {
    [TripLengthCommandFor(prefs.tripLength)] + DestinationCommands(prefs.preferredDestinations)
  }

  /** The ideal-month commands, in order: the trip-length command, then one
      AWARD DESTINATION per preferred destination in the order given, each
      into its priority pool with its monthly cap, then the report-time
      command when there is one. None of them is missing its days. */
  function Group1Commands(prefs: Preferences): (r: seq<BidCommandInput>)
    ensures |r| == 1 + |prefs.preferredDestinations|
                   + (if BuildReportTimeCommandFromPreference(prefs.reportTime).Some? then 1 else 0)
    ensures r[0] == TripLengthCommandFor(prefs.tripLength)
    ensures forall j :: 0 <= j < |prefs.preferredDestinations| ==> r[1 + j] == DestinationCommand(prefs.preferredDestinations[j])
    ensures BuildReportTimeCommandFromPreference(prefs.reportTime).Some? ==>
              r[|r| - 1] == BuildReportTimeCommandFromPreference(prefs.reportTime).value
    ensures forall i :: 0 <= i < |r| ==> !MissingDays(r[i])
  {
    var head := LengthAndDestinations(prefs);
    var tail := OptionToSeq(BuildReportTimeCommandFromPreference(prefs.reportTime));
    assert forall k :: 0 <= k < |head| ==> (head + tail)[k] == head[k];
    assert forall k :: 0 <= k < |tail| ==> (head + tail)[|head| + k] == tail[k];
    head + tail
  }

  function IdealGroup(commands: seq<BidCommandInput>): BidGroup {
    BidGroup("prefs-group-1", "Group 1 \U{2013} Ideal month (from preferences)", 1, Some(false), commands, None)
  }

  const BankProtectGroup: BidGroup :=
    BidGroup("prefs-bank-protect", "Final group \U{2013} Bank protection only", 99, Some(true),
             [DestinationInput(Award, Some(LMinusMinus), None,
                               Some("TODO: Replace with proper WORK_CONTAINED_WITHIN L-- pattern"), "L--")],
             None)

  /** The groups for a set of preferences: always the ideal-month group
      first (rank 1, not a final fallback), and the bank-protection group
      (rank 99, the final fallback) second exactly when bank protection is
      enabled. Only the last group can be a final fallback. */
  function GroupsFromPreferences(prefs: Preferences): (r: seq<BidGroup>)
    ensures |r| == (if prefs.bankProtection.enabled then 2 else 1)
    ensures r[0].id == "prefs-group-1" && r[0].rank == 1 && r[0].isFinalFallback == Some(false)
    ensures r[0].commands == Group1Commands(prefs)
    ensures |r| == 2 ==> r[1].id == "prefs-bank-protect" && r[1].rank == 99 && r[1].isFinalFallback == Some(true)
    ensures forall i :: 0 <= i < |r| ==> (r[i].isFinalFallback == Some(true) <==> prefs.bankProtection.enabled && i == |r| - 1)
  {
    [IdealGroup(Group1Commands(prefs))] + (if prefs.bankProtection.enabled then [BankProtectGroup] else [])
  }

  /** `buildBidGroupsFromPreferences`: pushes the commands of the first group
      one by one, the destinations in a loop, then pushes the groups. */
  method BuildBidGroupsFromPreferences(prefs: Preferences) returns (groups: seq<BidGroup>)
    ensures groups == GroupsFromPreferences(prefs)
  {
    groups := [];
    var group1Commands: seq<BidCommandInput> := [];

    var tripLengthCmd := BuildTripLengthCommandFromPreference(prefs.tripLength);
    group1Commands := group1Commands + [tripLengthCmd];

    var ds := prefs.preferredDestinations;
    var i := 0;
    while i < |ds|
      invariant 0 <= i <= |ds|
      invariant group1Commands == [tripLengthCmd] + DestinationCommands(ds[..i])
    {
      DestinationCommandsSnoc(ds, i);
      group1Commands := group1Commands + [DestinationCommand(ds[i])];
      i := i + 1;
    }
    assert ds[..i] == ds;

    var reportTimeCmd := BuildReportTimeCommandFromPreference(prefs.reportTime);
    if reportTimeCmd.Some? {
      group1Commands := group1Commands + [reportTimeCmd.value];
    } else {
      assert group1Commands == group1Commands + OptionToSeq(reportTimeCmd);
    }
    assert group1Commands == Group1Commands(prefs);

    groups := groups + [IdealGroup(group1Commands)];

    if prefs.bankProtection.enabled {
      groups := groups + [BankProtectGroup];
    }
  }

  lemma {:induction false} DestinationCommandsSnoc(ds: seq<DestinationPreference>, i: nat)
    requires i < |ds|
    ensures DestinationCommands(ds[..i + 1]) == DestinationCommands(ds[..i]) + [DestinationCommand(ds[i])]
  {
    var a := DestinationCommands(ds[..i + 1]);
    var b := DestinationCommands(ds[..i]) + [DestinationCommand(ds[i])];
    assert |a| == |b|;
    forall j | 0 <= j < |a| ensures a[j] == b[j] {
      assert ds[..i + 1][j] == ds[j];
      if j < i {
        assert ds[..i][j] == ds[j];
      }
    }
  }

  // ---------------------------------------------------------------------------
  // What the groups do
  // ---------------------------------------------------------------------------

  /** Every group built from preferences goes through the builder: one
      engine command per UI command, and a preview for any trips. */
  lemma {:induction false} PreferenceGroupsBuild(prefs: Preferences, dateRange: Option<DateRange>, trips: seq<Trip>)
    ensures forall g :: g in GroupsFromPreferences(prefs) ==>
              && BuildTripPropertyCommandsForGroup(g, dateRange).Ok?
              && |BuildTripPropertyCommandsForGroup(g, dateRange).value| == |g.commands|
              && PreviewBidGroupOnTrips(g, trips, dateRange).Ok?
  {
    var r := GroupsFromPreferences(prefs);
    forall g | g in r
      ensures BuildTripPropertyCommandsForGroup(g, dateRange).Ok?
    {
      var k :| 0 <= k < |r| && r[k] == g;
      if k == 0 {
        assert g.commands == Group1Commands(prefs);
      } else {
        assert g == BankProtectGroup;
      }
    }
  }

  /** The trip-length command of a preference, once built, selects exactly
      the trips whose length the preference asks for. */
  lemma {:induction false} TripLengthPreferenceSelects(pref: TripLengthPreference, dateRange: Option<DateRange>, trips: seq<Trip>)
    ensures forall t :: t in TripsAffectedByCommand(BuildTripPropertyCommand(TripLengthCommandFor(pref), dateRange).value, trips)
              <==> t in trips && PreferredLength(pref, t.tripDays)
  {
    BuiltTripLengthSelects(TripLengthCommandFor(pref), dateRange, trips);
  }

  /** A destination preference, once built, awards into its priority pool up
      to its cap, and selects the trips whose route contains the trimmed,
      upper-cased code. */
  lemma {:induction false} DestinationPreferenceSelects(d: DestinationPreference, dateRange: Option<DateRange>, trips: seq<Trip>)
    ensures var cmd := BuildTripPropertyCommand(DestinationCommand(d), dateRange).value;
            && cmd.kind == Award && cmd.tripPool == Some(d.priority) && cmd.limit == d.maxPerMonth
            && (forall t :: t in TripsAffectedByCommand(cmd, trips) <==>
                  t in trips && Trim(d.code) != "" && Includes(ToUpper(t.route), ToUpper(Trim(d.code))))
  {
    BuiltDestinationSelects(DestinationCommand(d), dateRange, trips);
  }

  /** The report-time command of a preference whose time reads as a clock
      time, once built, selects exactly the trips reporting strictly before
      that time, and carries no pool. */
  lemma {:induction false} ReportPreferenceSelects(pref: ReportTimePreference, dateRange: Option<DateRange>,
                                                   trips: seq<Trip>, bound: nat)
    requires pref.avoidVeryEarly && pref.earliestPreferredReport.Some?
    requires ParseHoursMinutes(Trim(pref.earliestPreferredReport.value)) == Some(bound)
    requires |Trim(pref.earliestPreferredReport.value)| <= 5
    ensures BuildReportTimeCommandFromPreference(pref).Some?
    ensures var cmd := BuildTripPropertyCommand(BuildReportTimeCommandFromPreference(pref).value, dateRange).value;
            && cmd.kind == Avoid && cmd.tripPool.None?
            && (forall t :: t in TripsAffectedByCommand(cmd, trips) <==> t in trips && ReportTimeIs(t, Less, bound))
  {
    BuiltReportTimeSelects(BuildReportTimeCommandFromPreference(pref).value, dateRange, trips, bound);
  }

  /** The default preferences give the ideal-month group with the balanced
      3-4 day command into N and the AVOID before 07:30 command, followed by
      the bank-protection group. */
  lemma {:induction false} DefaultPreferencesGroups()
    ensures GroupsFromPreferences(DefaultPreferences777()) == [
              IdealGroup([
                TripLengthDaysInput(Award, Some(N), None, Some("Balanced mix of 3- and 4-day trips"),
                                    Between, None, Some(3), Some(4)),
                TripReportTimeInput(Avoid, None, None, Some("Avoid reports earlier than 07:30"), EarlierThan, "07:30")]),
              BankProtectGroup]
  {
    assert "Avoid reports earlier than " + "07:30" == "Avoid reports earlier than 07:30";
    var c := Group1Commands(DefaultPreferences777());
    assert c == [c[0], c[1]];
  }

  /** The default 07:30 reads as 450 minutes, so the default report-time
      command selects the trips reporting before 07:30. */
  lemma {:induction false} DefaultReportSelects(dateRange: Option<DateRange>, trips: seq<Trip>)
    ensures var cmd := BuildTripPropertyCommand(BuildReportTimeCommandFromPreference(DefaultPreferences777().reportTime).value, dateRange).value;
            forall t :: t in TripsAffectedByCommand(cmd, trips) <==> t in trips && ReportTimeIs(t, Less, 450)
  {
    TrimNoop("07:30");
    assert "07:30"[..2] == "07" && "07:30"[3..] == "30";
    assert "07"[..1] == "0" && "30"[..1] == "3" && "0"[..0] == "" && "3"[..0] == "";
    assert DigitsValue("07") == 7 && DigitsValue("30") == 30;
    ReportPreferenceSelects(DefaultPreferences777().reportTime, dateRange, trips, 450);
  }
}
