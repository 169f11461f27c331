/** From the high-level command a pilot composes to the engine's canonical
    trip-property command (src/lib/bidCommandBuilder.ts). The builder encodes
    each command's parameters as the qualifier text the matcher parses, so its
    partner is the matcher: every lemma below builds a command and states
    which trips the matcher then selects. */
module BidCommandBuilder {
  import opened Wrappers
  import opened Text
  import opened Sequences
  import opened RuleTypes
  import opened TripMatching

  datatype TripLengthOperator = Equal | AtLeastDays | AtMostDays | Between

  datatype TimeComparisonOperator = EarlierThan | NotEarlierThan | LaterThan | NotLaterThan

  /** One UI-level command. `pool` only matters for AWARD; the optional
      numbers of a trip-length command are those its operator needs. */
  datatype BidCommandInput =
    | DestinationInput(verb: CommandKind, pool: Option<TripPool>, limit: Option<int>, note: Option<string>,
                       destination: string)
    | TripLengthDaysInput(verb: CommandKind, pool: Option<TripPool>, limit: Option<int>, note: Option<string>,
                          lengthOperator: TripLengthOperator, days: Option<int>,
                          minDays: Option<int>, maxDays: Option<int>)
    | TripReportTimeInput(verb: CommandKind, pool: Option<TripPool>, limit: Option<int>, note: Option<string>,
                          timeOperator: TimeComparisonOperator, time: string)

  /** Only AWARD commands carry a pool. */
  function ResolveTripPool(verb: CommandKind, pool: Option<TripPool>): (r: Option<TripPool>)
    ensures verb == Award ==> r == pool
    ensures verb == Avoid ==> r == None
  {
    if verb == Award then pool else None
  }

  /** The clock comparison each report-time operator stands for. */
  function TimeComparison(op: TimeComparisonOperator): Comparison {
    match op
    case EarlierThan => Less
    case NotEarlierThan => AtLeast
    case LaterThan => Greater
    case NotLaterThan => AtMost
  }

  /** The engine property behind each UI command kind. */
  function InputProperty(input: BidCommandInput): TripProperty {
    match input
    case DestinationInput(_, _, _, _, _) => Destination
    case TripLengthDaysInput(_, _, _, _, _, _, _, _) => TripLength
    case TripReportTimeInput(_, _, _, _, _, _) => TripReportTime
  }

  /** A trip-length command lacks a number its operator needs. */
  predicate MissingDays(input: BidCommandInput) {
    input.TripLengthDaysInput? &&
    if input.lengthOperator == Between then input.minDays.None? || input.maxDays.None?
    else input.days.None?
  }

  function MissingDaysMessage(op: TripLengthOperator): string {
    match op
    case Equal => "TRIP_LENGTH_DAYS (EQUAL) requires 'days'"
    case AtLeastDays => "TRIP_LENGTH_DAYS (AT_LEAST) requires 'days'"
    case AtMostDays => "TRIP_LENGTH_DAYS (AT_MOST) requires 'days'"
    case Between => "TRIP_LENGTH_DAYS (BETWEEN) requires 'minDays' and 'maxDays'"
  }

  /** The trip-length qualifier: `"{n}D"`, `">= {n}D"`, `"<= {n}D"` or
      `"{min}-{max}D"`, or the error for a missing number. */
  function TripLengthQualifier(op: TripLengthOperator, days: Option<int>, minDays: Option<int>, maxDays: Option<int>)
    : (r: Result<string, string>)
    ensures r.Err? <==> (if op == Between then minDays.None? || maxDays.None? else days.None?)
    ensures r.Err? ==> r.error == MissingDaysMessage(op)
    ensures r.Ok? ==> |r.value| >= 2 && r.value[|r.value| - 1] == 'D' && !IsSpace(r.value[0])
  {
    match op
    case Equal => if days.None? then Err(MissingDaysMessage(op)) else Ok(IntToString(days.value) + "D")
    case AtLeastDays => if days.None? then Err(MissingDaysMessage(op)) else Ok(">= " + IntToString(days.value) + "D")
    case AtMostDays => if days.None? then Err(MissingDaysMessage(op)) else Ok("<= " + IntToString(days.value) + "D")
    case Between =>
      if minDays.None? || maxDays.None? then Err(MissingDaysMessage(op))
      else Ok(IntToString(minDays.value) + "-" + IntToString(maxDays.value) + "D")
  }

  /** `buildTripPropertyCommand`. The thrown error is the `Err` case, with the
      source's message. Every successful result carries the verb, the date
      range, the limit and the note unchanged, a pool only for AWARD, and a
      qualifier. */
  function BuildTripPropertyCommand(input: BidCommandInput, dateRange: Option<DateRange>)
    : (r: Result<TripPropertyCommand, string>)
    ensures r.Err? <==> MissingDays(input)
    ensures r.Err? ==> r.error == MissingDaysMessage(input.lengthOperator)
    ensures r.Ok? ==> && r.value.kind == input.verb
                      && r.value.property == InputProperty(input)
                      && r.value.qualifier.Some?
                      && r.value.dateRange == dateRange
                      && r.value.tripPool == ResolveTripPool(input.verb, input.pool)
                      && r.value.limit == input.limit
                      && r.value.note == input.note
                      && PoolOnlyOnAward(r.value)
  {
    var pool := ResolveTripPool(input.verb, input.pool);
    match input
    case DestinationInput(verb, _, limit, note, destination) =>
      Ok(TripPropertyCommand(verb, Destination, Some(ToUpper(Trim(destination))), dateRange, pool, limit, note))
    case TripLengthDaysInput(verb, _, limit, note, op, days, minDays, maxDays) =>
      (match TripLengthQualifier(op, days, minDays, maxDays)
       case Err(e) => Err(e)
       case Ok(q) => Ok(TripPropertyCommand(verb, TripLength, Some(q), dateRange, pool, limit, note)))
    case TripReportTimeInput(verb, _, limit, note, op, time) =>
      var qualifier := ComparisonText(TimeComparison(op)) + " " + Trim(time);
      Ok(TripPropertyCommand(verb, TripReportTime, Some(qualifier), dateRange, pool, limit, note))
  }

  // ---------------------------------------------------------------------------
  // What the built commands select
  // ---------------------------------------------------------------------------

  /** A built DESTINATION command selects the trips whose route contains the
      trimmed, upper-cased destination; a blank destination selects none. */
  lemma {:induction false} BuiltDestinationSelects(input: BidCommandInput, dateRange: Option<DateRange>, trips: seq<Trip>)
    requires input.DestinationInput?
    ensures var cmd := BuildTripPropertyCommand(input, dateRange).value;
            && (Trim(input.destination) == "" ==> TripsAffectedByCommand(cmd, trips) == [])
            && (forall t :: t in TripsAffectedByCommand(cmd, trips) <==>
                  t in trips && Trim(input.destination) != ""
                  && Includes(ToUpper(t.route), ToUpper(Trim(input.destination))))
  {
    var cmd := BuildTripPropertyCommand(input, dateRange).value;
    var q := ToUpper(Trim(input.destination));
    if Trim(input.destination) != "" {
      DestinationSelects(cmd, trips, q);
      assert ToUpper(q) == q by { ToUpperIdempotent(Trim(input.destination)); }
    }
  }

  /** How a trip of `d` days compares with the days of a trip-length command. */
  predicate LengthMatches(input: BidCommandInput, d: int)
    requires input.TripLengthDaysInput? && !MissingDays(input)
  {
    match input.lengthOperator
    case Equal => d == input.days.value
    case AtLeastDays => d >= input.days.value
    case AtMostDays => d <= input.days.value
    case Between => input.minDays.value <= d <= input.maxDays.value
  }

  /** The numbers a trip-length command uses are all non-negative. */
  predicate DaysNonNegative(input: BidCommandInput)
    requires input.TripLengthDaysInput? && !MissingDays(input)
  {
    if input.lengthOperator == Between then input.minDays.value >= 0 && input.maxDays.value >= 0
    else input.days.value >= 0
  }

  /** A built TRIP_LENGTH_DAYS command with non-negative numbers selects
      exactly the trips whose length satisfies the operator: the matcher reads
      back what the builder wrote. */
  lemma {:induction false} BuiltTripLengthSelects(input: BidCommandInput, dateRange: Option<DateRange>, trips: seq<Trip>)
    requires input.TripLengthDaysInput? && !MissingDays(input) && DaysNonNegative(input)
    ensures forall t :: t in TripsAffectedByCommand(BuildTripPropertyCommand(input, dateRange).value, trips) <==>
              t in trips && LengthMatches(input, t.tripDays)
  {
    var cmd := BuildTripPropertyCommand(input, dateRange).value;
    match input.lengthOperator
    case Equal => BuiltExactSelects(cmd, trips, input.days.value);
    case AtLeastDays => BuiltAtLeastSelects(cmd, trips, input.days.value);
    case AtMostDays => BuiltAtMostSelects(cmd, trips, input.days.value);
    case Between => BuiltRangeSelects(cmd, trips, input.minDays.value, input.maxDays.value);
  }

  lemma {:induction false} BuiltExactSelects(cmd: TripPropertyCommand, trips: seq<Trip>, n: nat)
    requires cmd.property == TripLength && cmd.qualifier == Some(IntToString(n) + "D")
    ensures forall t :: t in TripsAffectedByCommand(cmd, trips) <==> t in trips && t.tripDays == n
  {
    BuiltExactForm(n);
    TripLengthExactSelects(cmd, trips, IntToString(n) + "D", NatToString(n));
  }

  lemma {:induction false} BuiltExactForm(n: nat)
    ensures ExactForm(Trim(IntToString(n) + "D"), NatToString(n))
    ensures DigitsValue(NatToString(n)) == n
  {
    TrimNoop(IntToString(n) + "D");
    DigitsValueOfNatToString(n);
  }

  lemma {:induction false} BuiltAtLeastSelects(cmd: TripPropertyCommand, trips: seq<Trip>, n: nat)
    requires cmd.property == TripLength && cmd.qualifier == Some(">= " + IntToString(n) + "D")
    ensures forall t :: t in TripsAffectedByCommand(cmd, trips) <==> t in trips && t.tripDays >= n
  {
    BuiltAtLeastForm(n);
    TripLengthAtLeastSelects(cmd, trips, ">= " + IntToString(n) + "D", " ", NatToString(n));
  }

  lemma {:induction false} BuiltAtMostSelects(cmd: TripPropertyCommand, trips: seq<Trip>, n: nat)
    requires cmd.property == TripLength && cmd.qualifier == Some("<= " + IntToString(n) + "D")
    ensures forall t :: t in TripsAffectedByCommand(cmd, trips) <==> t in trips && t.tripDays <= n
  {
    BuiltAtMostForm(n);
    TripLengthAtMostSelects(cmd, trips, "<= " + IntToString(n) + "D", " ", NatToString(n));
  }

  lemma {:induction false} BuiltAtLeastForm(n: nat)
    ensures BoundForm(">=", Trim(">= " + IntToString(n) + "D"), " ", NatToString(n))
    ensures DigitsValue(NatToString(n)) == n
  {
    assert ">= " + IntToString(n) + "D" == ">=" + " " + NatToString(n) + "D";
    TrimNoop(">= " + IntToString(n) + "D");
    DigitsValueOfNatToString(n);
  }

  lemma {:induction false} BuiltAtMostForm(n: nat)
    ensures BoundForm("<=", Trim("<= " + IntToString(n) + "D"), " ", NatToString(n))
    ensures DigitsValue(NatToString(n)) == n
  {
    assert "<= " + IntToString(n) + "D" == "<=" + " " + NatToString(n) + "D";
    TrimNoop("<= " + IntToString(n) + "D");
    DigitsValueOfNatToString(n);
  }

  lemma {:induction false} BuiltRangeSelects(cmd: TripPropertyCommand, trips: seq<Trip>, a: nat, b: nat)
    requires cmd.property == TripLength && cmd.qualifier == Some(IntToString(a) + "-" + IntToString(b) + "D")
    ensures forall t :: t in TripsAffectedByCommand(cmd, trips) <==> t in trips && a <= t.tripDays <= b
  {
    BuiltRangeForm(a, b);
    TripLengthRangeSelects(cmd, trips, IntToString(a) + "-" + IntToString(b) + "D", NatToString(a), NatToString(b));
  }

  lemma {:induction false} BuiltRangeForm(a: nat, b: nat)
    ensures RangeForm(Trim(IntToString(a) + "-" + IntToString(b) + "D"), NatToString(a), NatToString(b))
    ensures DigitsValue(NatToString(a)) == a && DigitsValue(NatToString(b)) == b
  {
    TrimNoop(IntToString(a) + "-" + IntToString(b) + "D");
    DigitsValueOfNatToString(a);
    DigitsValueOfNatToString(b);
  }

  /** A negative day count is written with a minus sign, which no trip-length
      form accepts: such a command selects no trip at all, even where the
      comparison itself would hold for every trip. */
  lemma {:induction false} NegativeDaysSelectNothing(input: BidCommandInput, dateRange: Option<DateRange>, trips: seq<Trip>)
    requires input.TripLengthDaysInput? && !MissingDays(input) && !DaysNonNegative(input)
    ensures TripsAffectedByCommand(BuildTripPropertyCommand(input, dateRange).value, trips) == []
  {
    var q := TripLengthQualifier(input.lengthOperator, input.days, input.minDays, input.maxDays).value;
    NegativeQualifierRejected(input.lengthOperator, input.days, input.minDays, input.maxDays);
    TrimNoop(q);
    assert BuildTripPropertyCommand(input, dateRange).value.qualifier == Some(q);
  }

  lemma {:induction false} NegativeQualifierRejected(op: TripLengthOperator, days: Option<int>, minDays: Option<int>, maxDays: Option<int>)
    requires TripLengthQualifier(op, days, minDays, maxDays).Ok?
    requires if op == Between then minDays.value < 0 || maxDays.value < 0 else days.value < 0
    ensures ParseTripLength(TripLengthQualifier(op, days, minDays, maxDays).value) == None
  {
    match op
    case Equal => NegativeExactRejected(days, minDays, maxDays);
    case AtLeastDays => NegativeAtLeastRejected(days, minDays, maxDays);
    case AtMostDays => NegativeAtMostRejected(days, minDays, maxDays);
    case Between => NegativeRangeRejected(days, minDays, maxDays);
  }

  lemma {:induction false} NegativeExactRejected(days: Option<int>, minDays: Option<int>, maxDays: Option<int>)
    requires days.Some? && days.value < 0
    ensures ParseTripLength(TripLengthQualifier(Equal, days, minDays, maxDays).value) == None
  {
    var q := TripLengthQualifier(Equal, days, minDays, maxDays).value;
    assert q == IntToString(days.value) + "D";
    NegativeLeadRejected(q);
  }

  lemma {:induction false} NegativeAtLeastRejected(days: Option<int>, minDays: Option<int>, maxDays: Option<int>)
    requires days.Some? && days.value < 0
    ensures ParseTripLength(TripLengthQualifier(AtLeastDays, days, minDays, maxDays).value) == None
  {
    var q := TripLengthQualifier(AtLeastDays, days, minDays, maxDays).value;
    assert q == ">=" + " " + IntToString(days.value) + "D";
    NegativeBoundRejected(">=", "<=", days.value);
  }

  lemma {:induction false} NegativeAtMostRejected(days: Option<int>, minDays: Option<int>, maxDays: Option<int>)
    requires days.Some? && days.value < 0
    ensures ParseTripLength(TripLengthQualifier(AtMostDays, days, minDays, maxDays).value) == None
  {
    var q := TripLengthQualifier(AtMostDays, days, minDays, maxDays).value;
    assert q == "<=" + " " + IntToString(days.value) + "D";
    NegativeBoundRejected("<=", ">=", days.value);
  }

  lemma {:induction false} NegativeRangeRejected(days: Option<int>, minDays: Option<int>, maxDays: Option<int>)
    requires minDays.Some? && maxDays.Some? && (minDays.value < 0 || maxDays.value < 0)
    ensures ParseTripLength(TripLengthQualifier(Between, days, minDays, maxDays).value) == None
  {
    var q := TripLengthQualifier(Between, days, minDays, maxDays).value;
    assert q == IntToString(minDays.value) + "-" + IntToString(maxDays.value) + "D";
    if minDays.value < 0 {
      assert q[0] == IntToString(minDays.value)[0] == '-';
      NegativeLeadRejected(q);
    } else {
      RangeNegativeMax(IntToString(minDays.value), IntToString(maxDays.value));
    }
  }

  /** A trip-length text written with a leading minus sign is rejected. */
  lemma {:induction false} NegativeLeadRejected(q: string)
    requires |q| >= 2 && q[|q| - 1] == 'D' && q[0] == '-'
    ensures ParseTripLength(q) == None
  {
    assert !IsPrefix(">=", q) && !IsPrefix("<=", q) by { assert q[..2][0] == '-'; }
    NoLeadingDigit(q);
  }

  /** `op` and `other` are the two operators `>=` and `<=`. */
  lemma {:induction false} NegativeBoundRejected(op: string, other: string, n: int)
    requires (op == ">=" && other == "<=") || (op == "<=" && other == ">=")
    requires n < 0
    ensures ParseTripLength(op + " " + IntToString(n) + "D") == None
  {
    var q := op + " " + IntToString(n) + "D";
    BoundNegative(op, IntToString(n));
    assert q[..2] == op;
    assert q[..2] != other;
    NoLeadingDigit(q);
  }

  /** A trip-length text that starts with neither a digit nor an operator is
      rejected; one that starts with an operator is rejected when what follows
      the operator is. */
  lemma {:induction false} NoLeadingDigit(q: string)
    requires |q| >= 2 && q[|q| - 1] == 'D' && !IsDigit(q[0])
    requires IsPrefix(">=", q) ==> BoundThenD(">=", q) == None
    requires IsPrefix("<=", q) ==> BoundThenD("<=", q) == None
    ensures ParseTripLength(q) == None
  {
    assert DigitsThenD(q) == None by { assert q[..|q| - 1][0] == q[0]; }
    assert DigitRun(q[..|q| - 1]) == 0 by { assert q[..|q| - 1][0] == q[0]; }
  }

  lemma {:induction false} BoundNegative(op: string, n: string)
    requires |op| == 2 && !IsSpace(op[0]) && !IsSpace(op[1])
    requires |n| > 0 && n[0] == '-'
    ensures BoundThenD(op, op + " " + n + "D") == None
  {
    var q := op + " " + n + "D";
    assert q[..2] == op;
    assert q[2..3] == " ";
    assert q[3] == '-';
    SkipSpacesOver(q, 2, " ");
    var t := q[3..];
    assert t[..|t| - 1][0] == '-';
  }

  lemma {:induction false} RangeNegativeMax(a: string, b: string)
    requires IsDigits(a) && |a| > 0 && |b| > 0 && b[0] == '-'
    ensures ParseTripLength(a + "-" + b + "D") == None
  {
    var q := a + "-" + b + "D";
    var body := q[..|q| - 1];
    assert body == a + "-" + b;
    assert body[..|a|] == a;
    assert body[|a|] == '-';
    DigitRunOf(body, a);
    assert body[|a| + 1..][0] == '-';
    assert DigitsThenD(q) == None by { assert body[|a|] == '-'; }
    assert !IsPrefix(">=", q) && !IsPrefix("<=", q) by { assert q[0] == a[0]; }
  }

  /** A built TRIP_REPORT_TIME command whose trimmed time reads as a clock
      time with at most two hour digits selects exactly the trips whose local
      report time is in the chosen relation to that time. */
  lemma {:induction false} BuiltReportTimeSelects(input: BidCommandInput, dateRange: Option<DateRange>, trips: seq<Trip>, bound: nat)
    requires input.TripReportTimeInput?
    requires ParseHoursMinutes(Trim(input.time)) == Some(bound) && |Trim(input.time)| <= 5
    ensures forall t :: t in TripsAffectedByCommand(BuildTripPropertyCommand(input, dateRange).value, trips) <==>
              t in trips && ReportTimeIs(t, TimeComparison(input.timeOperator), bound)
  {
    var cmd := BuildTripPropertyCommand(input, dateRange).value;
    ReportClockSelects(cmd, trips, TimeComparison(input.timeOperator), Trim(input.time), bound);
  }
}
