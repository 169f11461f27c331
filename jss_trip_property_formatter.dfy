/** The JSS trip-property line for one UI command
    (src/lib/jssTripPropertyFormatter.ts): a group label, the verb, the JSS
    keyword of the command and its operands, then optional POOL and LIMIT
    tokens, joined by single spaces. Unlike the engine renderer, the line is
    not trimmed, and the operands are written as the pilot typed them. The
    partner of the line is the list of its tokens: splitting the line on
    spaces gives them back. */
module JssTripPropertyFormatter {
  import opened Wrappers
  import opened Text
  import opened RuleTypes
  import opened TripMatching
  import opened BidCommandBuilder

  /** `lengthOperatorToSymbol`. */
  function LengthOperatorSymbol(op: TripLengthOperator): (r: string)
    ensures |r| > 0 && ' ' !in r
    ensures op == Between <==> r == "BETWEEN"
  {
    match op
    case Equal => "="
    case AtLeastDays => ">="
    case AtMostDays => "<="
    case Between => "BETWEEN"
  }

  /** `timeOperatorToSymbol`. */
  function TimeOperatorSymbol(op: TimeComparisonOperator): (r: string)
    ensures |r| > 0 && ' ' !in r
  {
    match op
    case EarlierThan => "<"
    case NotEarlierThan => ">="
    case LaterThan => ">"
    case NotLaterThan => "<="
  }

  /** The formatter writes the same comparison symbol as the builder puts in
      front of a report-time qualifier. */
  lemma {:induction false} TimeSymbolMatchesBuilder(op: TimeComparisonOperator)
    ensures TimeOperatorSymbol(op) == ComparisonText(TimeComparison(op))
  {
    match op
    case EarlierThan =>
    case NotEarlierThan =>
    case LaterThan =>
    case NotLaterThan =>
  }

  /** The four symbols are distinct, so the symbol names the operator. */
  lemma {:induction false} TimeOperatorSymbolInjective(a: TimeComparisonOperator, b: TimeComparisonOperator)
    requires TimeOperatorSymbol(a) == TimeOperatorSymbol(b)
    ensures a == b
  {
    assert TimeOperatorSymbol(a)[0] == TimeOperatorSymbol(b)[0];
    assert |TimeOperatorSymbol(a)| == |TimeOperatorSymbol(b)|;
  }

  /** `groupNumber.toString().padStart(2, "0")`: a one-digit group number
      gets a leading zero, every other number is written as it is. */
  function GroupLabel(groupNumber: int): (r: string)
    ensures 0 <= groupNumber < 10 ==> r == "0" + IntToString(groupNumber)
    ensures (groupNumber < 0 || groupNumber >= 10) ==> r == IntToString(groupNumber)
    ensures |r| >= 2 && ' ' !in r
  {
    var s := IntToString(groupNumber);
    GroupDigits(groupNumber);
    PadStart(s, 2, '0')
  }

  lemma {:induction false} GroupDigits(n: int)
    ensures 0 <= n < 10 ==> |IntToString(n)| == 1
    ensures (n < 0 || n >= 10) ==> |IntToString(n)| >= 2
    ensures ' ' !in IntToString(n)
  {
    IntToStringNoSpace(n);
    if n >= 10 {
      assert NatToString(n) == NatToString(n / 10) + [DigitChar(n % 10)];
    }
  }

  /** A written number is a minus sign and digits, never a space. */
  lemma {:induction false} IntToStringNoSpace(n: int)
    ensures ' ' !in IntToString(n)
  {
    if n < 0 {
      DigitsHaveNoSpace(NatToString(-n));
      NoSpaceInConcat("-", NatToString(-n));
    } else {
      DigitsHaveNoSpace(NatToString(n));
    }
  }

  lemma {:induction false} DigitsHaveNoSpace(s: string)
    requires IsDigits(s)
    ensures ' ' !in s
  {
  }

  lemma {:induction false} NoSpaceInConcat(a: string, b: string)
    requires ' ' !in a && ' ' !in b
    ensures ' ' !in a + b
  {
  }

  /** The JSS keyword after the verb. */
  function Keyword(input: BidCommandInput): (r: string)
    ensures |r| > 0 && ' ' !in r
  {
    match input
    case DestinationInput(_, _, _, _, _) => "DESTINATION"
    case TripLengthDaysInput(_, _, _, _, _, _, _, _) => "TRIP_LENGTH_DAYS"
    case TripReportTimeInput(_, _, _, _, _, _) => "REPORT_TIME"
  }

  /** The tokens of a trip-length command: both bounds for BETWEEN, the
      symbol and the days otherwise, nothing when a number is missing. */
  function LengthParts(op: TripLengthOperator, days: Option<int>, minDays: Option<int>, maxDays: Option<int>)
    : seq<string>
  {
    if op == Between then
      (if minDays.Some? && maxDays.Some? then ["BETWEEN", IntToString(minDays.value), IntToString(maxDays.value)] else [])
    else if days.Some? then [LengthOperatorSymbol(op), IntToString(days.value)]
    else []
  }

  /** The tokens after the keyword and before POOL. */
  function OperandParts(input: BidCommandInput): seq<string> {
    match input
    case DestinationInput(_, _, _, _, destination) => [destination]
    case TripLengthDaysInput(_, _, _, _, op, days, minDays, maxDays) => LengthParts(op, days, minDays, maxDays)
    case TripReportTimeInput(_, _, _, _, op, time) => [TimeOperatorSymbol(op), time]
  }

  /** The optional tail shared by all three kinds. */
  function PoolLimitParts(pool: Option<TripPool>, limit: Option<int>): seq<string> {
    (if pool.Some? then ["POOL", PoolText(pool.value)] else [])
    + (if limit.Some? then ["LIMIT", IntToString(limit.value)] else [])
  }

  /** Every token of the line for group label `grp`, in order. */
  function FormatParts(input: BidCommandInput, grp: string): seq<string> {
    ["G" + grp, KindText(input.verb), Keyword(input)] + OperandParts(input) + PoolLimitParts(input.pool, input.limit)
  }

  /** The line `formatBidCommandInputToJss` returns. */
  function FormattedLine(input: BidCommandInput, groupNumber: int): string {
    JoinWithSpaces(FormatParts(input, GroupLabel(groupNumber)))
  }

  // ---------------------------------------------------------------------------
  // The formatters, pushing parts as the source does
  // ---------------------------------------------------------------------------

  /** `formatDestinationCommand`. */
  method FormatDestinationCommand(input: BidCommandInput, grp: string) returns (line: string)
    requires input.DestinationInput?
    ensures line == JoinWithSpaces(FormatParts(input, grp))
  {
    var parts := ["G" + grp, KindText(input.verb), "DESTINATION", input.destination];
    if input.pool.Some? {
      parts := parts + ["POOL", PoolText(input.pool.value)];
    }
    if input.limit.Some? {
      parts := parts + ["LIMIT", IntToString(input.limit.value)];
    }
    PushedTail(["G" + grp, KindText(input.verb), "DESTINATION"] + [input.destination], input.pool, input.limit, parts);
    line := JoinWithSpaces(parts);
  }

  /** `formatTripLengthDaysCommand`. */
  method FormatTripLengthDaysCommand(input: BidCommandInput, grp: string) returns (line: string)
    requires input.TripLengthDaysInput?
    ensures line == JoinWithSpaces(FormatParts(input, grp))
  {
    var parts := ["G" + grp, KindText(input.verb), "TRIP_LENGTH_DAYS"];
    if input.lengthOperator == Between {
      if input.minDays.Some? && input.maxDays.Some? {
        parts := parts + ["BETWEEN", IntToString(input.minDays.value), IntToString(input.maxDays.value)];
      }
    } else if input.days.Some? {
      var opSymbol := LengthOperatorSymbol(input.lengthOperator);
      parts := parts + [opSymbol, IntToString(input.days.value)];
    }
    assert parts == ["G" + grp, KindText(input.verb), Keyword(input)] + OperandParts(input);
    var lead := parts;
    if input.pool.Some? {
      parts := parts + ["POOL", PoolText(input.pool.value)];
    }
    if input.limit.Some? {
      parts := parts + ["LIMIT", IntToString(input.limit.value)];
    }
    PushedTail(lead, input.pool, input.limit, parts);
    line := JoinWithSpaces(parts);
  }

  /** `formatTripReportTimeCommand`. */
  method FormatTripReportTimeCommand(input: BidCommandInput, grp: string) returns (line: string)
    requires input.TripReportTimeInput?
    ensures line == JoinWithSpaces(FormatParts(input, grp))
  {
    var parts := ["G" + grp, KindText(input.verb), "REPORT_TIME", TimeOperatorSymbol(input.timeOperator), input.time];
    if input.pool.Some? {
      parts := parts + ["POOL", PoolText(input.pool.value)];
    }
    if input.limit.Some? {
      parts := parts + ["LIMIT", IntToString(input.limit.value)];
    }
    PushedTail(["G" + grp, KindText(input.verb), "REPORT_TIME"] + [TimeOperatorSymbol(input.timeOperator), input.time],
               input.pool, input.limit, parts);
    line := JoinWithSpaces(parts);
  }

  /** The conditional POOL and LIMIT pushes leave the lead parts followed by
      the optional tail. */
  lemma {:induction false} PushedTail(lead: seq<string>, pool: Option<TripPool>, limit: Option<int>, parts: seq<string>)
    requires parts == lead + (if pool.Some? then ["POOL", PoolText(pool.value)] else [])
                           + (if limit.Some? then ["LIMIT", IntToString(limit.value)] else [])
    ensures parts == lead + PoolLimitParts(pool, limit)
  {
    ConcatAssocText(lead, if pool.Some? then ["POOL", PoolText(pool.value)] else [],
                    if limit.Some? then ["LIMIT", IntToString(limit.value)] else []);
  }

  lemma {:induction false} ConcatAssocText(a: seq<string>, b: seq<string>, c: seq<string>)
    ensures a + b + c == a + (b + c)
  {
  }

  /** `formatBidCommandInputToJss`: the group label, then the formatter for
      the command's kind. */
  method FormatBidCommandInputToJss(input: BidCommandInput, groupNumber: int) returns (line: string)
    ensures line == FormattedLine(input, groupNumber)
  {
    var grp := PadStart(IntToString(groupNumber), 2, '0');
    assert grp == GroupLabel(groupNumber);
    match input
    case DestinationInput(_, _, _, _, _) =>
      line := FormatDestinationCommand(input, grp);
    case TripLengthDaysInput(_, _, _, _, _, _, _, _) =>
      line := FormatTripLengthDaysCommand(input, grp);
    case TripReportTimeInput(_, _, _, _, _, _) =>
      line := FormatTripReportTimeCommand(input, grp);
  }

  // ---------------------------------------------------------------------------
  // What the line says
  // ---------------------------------------------------------------------------

  /** The operands the pilot typed hold no space. */
  predicate RawOperandsHaveNoSpace(input: BidCommandInput) {
    match input
    case DestinationInput(_, _, _, _, destination) => ' ' !in destination
    case TripLengthDaysInput(_, _, _, _, _, _, _, _) => true
    case TripReportTimeInput(_, _, _, _, _, time) => ' ' !in time
  }

  predicate NoSpaceInParts(parts: seq<string>) {
    forall i :: 0 <= i < |parts| ==> ' ' !in parts[i]
  }

  lemma {:induction false} NoSpaceInAppend(a: seq<string>, b: seq<string>)
    requires NoSpaceInParts(a) && NoSpaceInParts(b)
    ensures NoSpaceInParts(a + b)
  {
    forall i | 0 <= i < |a + b| ensures ' ' !in (a + b)[i] {
      if i >= |a| {
        assert (a + b)[i] == b[i - |a|];
      }
    }
  }

  lemma {:induction false} PoolLimitNoSpace(pool: Option<TripPool>, limit: Option<int>)
    ensures NoSpaceInParts(PoolLimitParts(pool, limit))
  {
    var p: seq<string> := if pool.Some? then ["POOL", PoolText(pool.value)] else [];
    var l: seq<string> := if limit.Some? then ["LIMIT", IntToString(limit.value)] else [];
    if pool.Some? {
      assert ' ' !in PoolText(pool.value);
    }
    if limit.Some? {
      IntToStringNoSpace(limit.value);
    }
    assert NoSpaceInParts(p) && NoSpaceInParts(l);
    NoSpaceInAppend(p, l);
  }

  lemma {:induction false} OperandsNoSpace(input: BidCommandInput)
    requires RawOperandsHaveNoSpace(input)
    ensures NoSpaceInParts(OperandParts(input))
  {
    match input
    case DestinationInput(_, _, _, _, _) =>
    case TripLengthDaysInput(_, _, _, _, op, days, minDays, maxDays) =>
      if op == Between {
        if minDays.Some? && maxDays.Some? {
          IntToStringNoSpace(minDays.value);
          IntToStringNoSpace(maxDays.value);
        }
      } else if days.Some? {
        IntToStringNoSpace(days.value);
      }
    case TripReportTimeInput(_, _, _, _, _, _) =>
  }

  lemma {:induction false} HeadNoSpace(input: BidCommandInput, groupNumber: int)
    ensures NoSpaceInParts(["G" + GroupLabel(groupNumber), KindText(input.verb), Keyword(input)])
  {
    NoSpaceInConcat("G", GroupLabel(groupNumber));
    KindTextNoSpace(input.verb);
    NoSpaceInThree("G" + GroupLabel(groupNumber), KindText(input.verb), Keyword(input));
  }

  lemma {:induction false} KindTextNoSpace(k: CommandKind)
    ensures ' ' !in KindText(k)
  {
  }

  lemma {:induction false} NoSpaceInThree(a: string, b: string, c: string)
    requires ' ' !in a && ' ' !in b && ' ' !in c
    ensures NoSpaceInParts([a, b, c])
  {
  }

  /** The line is its tokens joined by single spaces, and nothing else:
      splitting it on spaces gives back the label, the verb, the keyword, the
      operands, the pool and the limit, in that order. This holds whenever
      the destination or time text itself holds no space. */
  lemma {:induction false} FormattedLineTokens(input: BidCommandInput, groupNumber: int)
    requires RawOperandsHaveNoSpace(input)
    ensures SplitOnSpace(FormattedLine(input, groupNumber)) == FormatParts(input, GroupLabel(groupNumber))
  {
    var head := ["G" + GroupLabel(groupNumber), KindText(input.verb), Keyword(input)];
    HeadNoSpace(input, groupNumber);
    OperandsNoSpace(input);
    PoolLimitNoSpace(input.pool, input.limit);
    NoSpaceInAppend(head, OperandParts(input));
    NoSpaceInAppend(head + OperandParts(input), PoolLimitParts(input.pool, input.limit));
    SplitJoinWithSpaces(FormatParts(input, GroupLabel(groupNumber)));
  }

  /** Every line starts with "G", the padded group number, a space, the
      verb, a space and the keyword of the command's kind. */
  lemma {:induction false} FormattedLineStarts(input: BidCommandInput, groupNumber: int)
    ensures IsPrefix("G" + GroupLabel(groupNumber) + " " + KindText(input.verb) + " " + Keyword(input),
                     FormattedLine(input, groupNumber))
  {
    var head := ["G" + GroupLabel(groupNumber), KindText(input.verb), Keyword(input)];
    var tail := OperandParts(input) + PoolLimitParts(input.pool, input.limit);
    ConcatAssocText(head, OperandParts(input), PoolLimitParts(input.pool, input.limit));
    JoinWithSpacesPrefix(head, tail);
    HeadJoin(head);
  }

  lemma {:induction false} HeadJoin(head: seq<string>)
    requires |head| == 3
    ensures JoinWithSpaces(head) == head[0] + " " + head[1] + " " + head[2]
  {
    assert head[1..][1..] == [head[2]];
    assert JoinWithSpaces(head[1..]) == head[1] + " " + head[2];
  }

  /** A DESTINATION line carries the destination exactly as typed: it is
      neither trimmed nor upper-cased, unlike the engine qualifier. */
  lemma {:induction false} DestinationTokenRaw(input: BidCommandInput, grp: string)
    requires input.DestinationInput?
    ensures FormatParts(input, grp)[3] == input.destination
    ensures FormatParts(input, grp)[..4] == ["G" + grp, KindText(input.verb), "DESTINATION", input.destination]
  {
  }

  /** A trip-length command with both bounds for BETWEEN, or with days for
      any other operator, shows them after the keyword. */
  lemma {:induction false} LengthTokens(input: BidCommandInput, grp: string)
    requires input.TripLengthDaysInput? && !MissingDays(input)
    ensures input.lengthOperator == Between ==>
              FormatParts(input, grp)[3..6] == ["BETWEEN", IntToString(input.minDays.value), IntToString(input.maxDays.value)]
    ensures input.lengthOperator != Between ==>
              FormatParts(input, grp)[3..5] == [LengthOperatorSymbol(input.lengthOperator), IntToString(input.days.value)]
  {
  }

  /** A trip-length command missing the number its operator needs is still
      formatted, without any operator tokens, where the builder reports an
      error. */
  lemma {:induction false} MissingDaysFormatsNoOperands(input: BidCommandInput, grp: string, dateRange: Option<DateRange>)
    requires input.TripLengthDaysInput? && MissingDays(input)
    ensures FormatParts(input, grp) == ["G" + grp, KindText(input.verb), "TRIP_LENGTH_DAYS"] + PoolLimitParts(input.pool, input.limit)
    ensures BuildTripPropertyCommand(input, dateRange).Err?
  {
    assert OperandParts(input) == [];
  }

  /** The POOL tokens come right after the operands whenever the input has a
      pool, for AVOID as much as for AWARD, although the engine command built
      from an AVOID input has no pool. */
  lemma {:induction false} PoolShownForEitherVerb(input: BidCommandInput, grp: string, dateRange: Option<DateRange>)
    requires input.pool.Some?
    ensures var lead := 3 + |OperandParts(input)|;
            && |FormatParts(input, grp)| >= lead + 2
            && FormatParts(input, grp)[lead..lead + 2] == ["POOL", PoolText(input.pool.value)]
    ensures input.verb == Avoid && BuildTripPropertyCommand(input, dateRange).Ok? ==>
              BuildTripPropertyCommand(input, dateRange).value.tripPool.None?
  {
    var head := ["G" + grp, KindText(input.verb), Keyword(input)] + OperandParts(input);
    var tail := ["POOL", PoolText(input.pool.value)]
                + (if input.limit.Some? then ["LIMIT", IntToString(input.limit.value)] else []);
    PoolTail(input, grp);
    MiddleSlice(head, tail);
  }

  lemma {:induction false} PoolTail(input: BidCommandInput, grp: string)
    requires input.pool.Some?
    ensures FormatParts(input, grp)
            == (["G" + grp, KindText(input.verb), Keyword(input)] + OperandParts(input))
               + (["POOL", PoolText(input.pool.value)]
                  + (if input.limit.Some? then ["LIMIT", IntToString(input.limit.value)] else []))
  {
  }

  lemma {:induction false} MiddleSlice(head: seq<string>, tail: seq<string>)
    requires |tail| >= 2
    ensures |head + tail| >= |head| + 2 && (head + tail)[|head|..|head| + 2] == tail[..2]
  {
  }

  /** The same command without a limit. */
  function WithoutLimit(input: BidCommandInput): BidCommandInput {
    match input
    case DestinationInput(verb, pool, _, note, destination) => DestinationInput(verb, pool, None, note, destination)
    case TripLengthDaysInput(verb, pool, _, note, op, days, minDays, maxDays) =>
      TripLengthDaysInput(verb, pool, None, note, op, days, minDays, maxDays)
    case TripReportTimeInput(verb, pool, _, note, op, time) => TripReportTimeInput(verb, pool, None, note, op, time)
  }

  /** The limit is shown whenever it is defined, zero included, as the last
      two tokens: the line is the line without the limit followed by " LIMIT "
      and the number. */
  lemma {:induction false} LimitShownLast(input: BidCommandInput, groupNumber: int)
    requires input.limit.Some?
    ensures FormattedLine(input, groupNumber)
            == FormattedLine(WithoutLimit(input), groupNumber) + " LIMIT " + IntToString(input.limit.value)
  {
    var grp := GroupLabel(groupNumber);
    var lead := FormatParts(WithoutLimit(input), grp);
    LimitParts(input, grp);
    JoinWithSpacesSnoc(lead, "LIMIT");
    JoinWithSpacesSnoc(lead + ["LIMIT"], IntToString(input.limit.value));
    LimitJoin(JoinWithSpaces(lead), IntToString(input.limit.value));
  }

  lemma {:induction false} LimitParts(input: BidCommandInput, grp: string)
    requires input.limit.Some?
    ensures FormatParts(input, grp) == FormatParts(WithoutLimit(input), grp) + ["LIMIT"] + [IntToString(input.limit.value)]
  {
    var pool: seq<string> := if input.pool.Some? then ["POOL", PoolText(input.pool.value)] else [];
    var head := ["G" + grp, KindText(input.verb), Keyword(input)] + OperandParts(input);
    WithoutLimitParts(input, grp);
    LimitPartsSplit(head, pool, FormatParts(WithoutLimit(input), grp), FormatParts(input, grp), IntToString(input.limit.value));
  }

  lemma {:induction false} WithoutLimitParts(input: BidCommandInput, grp: string)
    ensures ["G" + grp, KindText(WithoutLimit(input).verb), Keyword(WithoutLimit(input))] + OperandParts(WithoutLimit(input))
            == ["G" + grp, KindText(input.verb), Keyword(input)] + OperandParts(input)
    ensures WithoutLimit(input).pool == input.pool && WithoutLimit(input).limit.None?
  {
  }

  lemma {:induction false} LimitPartsSplit(head: seq<string>, pool: seq<string>, without: seq<string>, with: seq<string>, n: string)
    requires without == head + (pool + [])
    requires with == head + (pool + ["LIMIT", n])
    ensures with == without + ["LIMIT"] + [n]
  {
  }

  lemma {:induction false} LimitJoin(lead: string, n: string)
    ensures lead + " " + "LIMIT" + " " + n == lead + " LIMIT " + n
  {
  }

  /** A line without pool or limit ends with the operands, or with the keyword
      when there are none. */
  lemma {:induction false} NoPoolNoLimit(input: BidCommandInput, grp: string)
    requires input.pool.None? && input.limit.None?
    ensures FormatParts(input, grp) == ["G" + grp, KindText(input.verb), Keyword(input)] + OperandParts(input)
  {
    assert PoolLimitParts(input.pool, input.limit) == [];
  }

  /** For a report time already trimmed, the symbol and time tokens are the
      builder's qualifier split at its single space. */
  lemma {:induction false} ReportTokensMatchQualifier(input: BidCommandInput, grp: string, dateRange: Option<DateRange>)
    requires input.TripReportTimeInput? && Trim(input.time) == input.time
    ensures BuildTripPropertyCommand(input, dateRange).Ok?
    ensures BuildTripPropertyCommand(input, dateRange).value.qualifier
            == Some(FormatParts(input, grp)[3] + " " + FormatParts(input, grp)[4])
  {
    TimeSymbolMatchesBuilder(input.timeOperator);
    ReportTokens(input, grp);
    BuiltReportQualifier(input, dateRange);
  }

  lemma {:induction false} ReportTokens(input: BidCommandInput, grp: string)
    requires input.TripReportTimeInput?
    ensures |FormatParts(input, grp)| >= 5
    ensures FormatParts(input, grp)[3] == TimeOperatorSymbol(input.timeOperator) && FormatParts(input, grp)[4] == input.time
  {
  }

  lemma {:induction false} BuiltReportQualifier(input: BidCommandInput, dateRange: Option<DateRange>)
    requires input.TripReportTimeInput?
    ensures BuildTripPropertyCommand(input, dateRange).Ok?
    ensures BuildTripPropertyCommand(input, dateRange).value.qualifier
            == Some(ComparisonText(TimeComparison(input.timeOperator)) + " " + Trim(input.time))
  {
  }

  /** For AT_LEAST and AT_MOST, the builder's qualifier is the formatter's
      symbol and days tokens followed by "D". */
  lemma {:induction false} BoundTokensMatchQualifier(input: BidCommandInput, grp: string, dateRange: Option<DateRange>)
    requires input.TripLengthDaysInput? && input.lengthOperator in {AtLeastDays, AtMostDays} && input.days.Some?
    ensures BuildTripPropertyCommand(input, dateRange).Ok?
    ensures BuildTripPropertyCommand(input, dateRange).value.qualifier
            == Some(FormatParts(input, grp)[3] + " " + FormatParts(input, grp)[4] + "D")
  {
    var d := IntToString(input.days.value);
    if input.lengthOperator == AtLeastDays {
      assert ">= " + d + "D" == ">=" + " " + d + "D";
    } else {
      assert "<= " + d + "D" == "<=" + " " + d + "D";
    }
  }

  /** "G01 AWARD DESTINATION MLE POOL H": the first group's MLE command into
      the H pool with no limit. */
  lemma {:induction false} FormattedExample()
    ensures FormattedLine(DestinationInput(Award, Some(H), None, None, "MLE"), 1)
            == "G01 AWARD DESTINATION MLE POOL H"
  {
    ExampleLabel();
    ExampleParts();
    ExampleJoin();
  }

  lemma {:induction false} ExampleLabel()
    ensures GroupLabel(1) == "01"
  {
    assert IntToString(1) == "1";
  }

  lemma {:induction false} ExampleParts()
    ensures FormatParts(DestinationInput(Award, Some(H), None, None, "MLE"), "01")
            == ["G01", "AWARD", "DESTINATION"] + ["MLE", "POOL", "H"]
  {
    var input := DestinationInput(Award, Some(H), None, None, "MLE");
    assert "G" + "01" == "G01";
    assert PoolLimitParts(input.pool, input.limit) == ["POOL", "H"];
  }

  lemma {:induction false} ExampleJoin()
    ensures JoinWithSpaces(["G01", "AWARD", "DESTINATION"] + ["MLE", "POOL", "H"]) == "G01 AWARD DESTINATION MLE POOL H"
  {
    JoinWithSpacesAppend(["G01", "AWARD", "DESTINATION"], ["MLE", "POOL", "H"]);
    ExampleHeadJoin();
    ExampleTailJoin();
    assert "G01 AWARD DESTINATION" + " " + "MLE POOL H" == "G01 AWARD DESTINATION MLE POOL H";
  }

  lemma {:induction false} ExampleHeadJoin()
    ensures JoinWithSpaces(["G01", "AWARD", "DESTINATION"]) == "G01 AWARD DESTINATION"
  {
    HeadJoin(["G01", "AWARD", "DESTINATION"]);
    assert "G01" + " " + "AWARD" + " " + "DESTINATION" == "G01 AWARD DESTINATION";
  }

  lemma {:induction false} ExampleTailJoin()
    ensures JoinWithSpaces(["MLE", "POOL", "H"]) == "MLE POOL H"
  {
    HeadJoin(["MLE", "POOL", "H"]);
    assert "MLE" + " " + "POOL" + " " + "H" == "MLE POOL H";
  }
}
