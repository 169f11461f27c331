/** The one-line text form of an engine command (src/rules/jssCommands.ts):
    the kind, the property with its qualifier, the date range, the pool and
    the limit, in that order, joined by single spaces and trimmed. */
module JssCommands {
  import opened Wrappers
  import opened Text
  import opened RuleTypes

  /** The fixed abbreviation of each property. */
  function PropertyAbbreviation(p: TripProperty): (r: string)
    ensures |r| > 0 && !IsSpace(r[0]) && !IsSpace(r[|r| - 1])
  {
    match p
    case Destination => "DEST"
    case TripNumber => "TRIP"
    case TripLength => "TLEN"
    case CreditTime => "CREDIT"
    case BlockTime => "BLOCK"
    case LayoverWithLength => "LAYOVER"
    case OnDutyWithin => "ONDUTY"
    case TripStartTime => "TRIPSTART"
    case TripReportTime => "REPORT"
  }

  /** Different properties never share an abbreviation, so the line names
      its property unambiguously. */
  lemma {:induction false} PropertyAbbreviationInjective(p: TripProperty, q: TripProperty)
    requires PropertyAbbreviation(p) == PropertyAbbreviation(q)
    ensures p == q
  {
    match p
    case Destination => assert PropertyAbbreviation(q)[..2] == "DE";
    case TripNumber => assert |PropertyAbbreviation(q)| == 4 && PropertyAbbreviation(q)[1] == 'R';
    case TripLength => assert PropertyAbbreviation(q)[..2] == "TL";
    case CreditTime => assert PropertyAbbreviation(q)[..2] == "CR";
    case BlockTime => assert PropertyAbbreviation(q)[..2] == "BL";
    case LayoverWithLength => assert PropertyAbbreviation(q)[..2] == "LA";
    case OnDutyWithin => assert PropertyAbbreviation(q)[..2] == "ON";
    case TripStartTime => assert |PropertyAbbreviation(q)| == 9;
    case TripReportTime => assert PropertyAbbreviation(q)[..2] == "RE";
  }

  /** A qualifier is shown only when it is present and not empty. */
  predicate HasQualifier(cmd: TripPropertyCommand) {
    cmd.qualifier.Some? && cmd.qualifier.value != ""
  }

  /** `propertyToText`: the abbreviation, followed by a space and the
      qualifier exactly when there is one. */
  function PropertyToText(cmd: TripPropertyCommand): (r: string)
    ensures IsPrefix(PropertyAbbreviation(cmd.property), r)
    ensures !HasQualifier(cmd) ==> |r| == |PropertyAbbreviation(cmd.property)|
    ensures HasQualifier(cmd) ==> r[|PropertyAbbreviation(cmd.property)|..] == " " + cmd.qualifier.value
  {
    var base := PropertyAbbreviation(cmd.property);
    if HasQualifier(cmd) then base + " " + cmd.qualifier.value else base
  }

  /** `from ?? ""`, and likewise for `to`. */
  function SideText(side: Option<string>): string {
    match side
    case None => ""
    case Some(s) => s
  }

  /** The date range is shown when one of its sides is a non-empty string. */
  predicate ShowsRange(cmd: TripPropertyCommand) {
    cmd.dateRange.Some? && (SideText(cmd.dateRange.value.from) != "" || SideText(cmd.dateRange.value.to) != "")
  }

  function RangeToken(cmd: TripPropertyCommand): seq<string> {
    if ShowsRange(cmd) then [SideText(cmd.dateRange.value.from) + "-" + SideText(cmd.dateRange.value.to)] else []
  }

  function PoolToken(cmd: TripPropertyCommand): seq<string> {
    if cmd.kind == Award && cmd.tripPool.Some? then ["[" + PoolText(cmd.tripPool.value) + "]"] else []
  }

  function LimitToken(cmd: TripPropertyCommand): seq<string> {
    if cmd.limit.Some? then ["MAX " + IntToString(cmd.limit.value)] else []
  }

  /** The parts before the limit. */
  function LeadingParts(cmd: TripPropertyCommand): (parts: seq<string>)
    ensures |parts| >= 2 && parts[0] == KindText(cmd.kind) && parts[1] == PropertyToText(cmd)
  {
    [KindText(cmd.kind), PropertyToText(cmd)] + RangeToken(cmd) + PoolToken(cmd)
  }

  /** The parts in the order the renderer pushes them. */
  function RenderParts(cmd: TripPropertyCommand): (parts: seq<string>)
    ensures |parts| >= 2 && parts[0] == KindText(cmd.kind) && parts[1] == PropertyToText(cmd)
  {
    LeadingParts(cmd) + LimitToken(cmd)
  }

  /** The rendered line: the parts joined by single spaces, then trimmed. */
  function RenderedLine(cmd: TripPropertyCommand): string {
    Trim(JoinWithSpaces(RenderParts(cmd)))
  }

  /** `renderTripPropertyCommand`: pushes the kind and the property text, then
      the range, the pool and the limit where they apply, and joins. */
  method RenderTripPropertyCommand(cmd: TripPropertyCommand) returns (line: string)
    ensures line == RenderedLine(cmd)
  {
    var parts := [KindText(cmd.kind)];
    parts := parts + [PropertyToText(cmd)];
    if cmd.dateRange.Some? && (SideText(cmd.dateRange.value.from) != "" || SideText(cmd.dateRange.value.to) != "") {
      parts := parts + [SideText(cmd.dateRange.value.from) + "-" + SideText(cmd.dateRange.value.to)];
    }
    if cmd.kind == Award && cmd.tripPool.Some? {
      parts := parts + ["[" + PoolText(cmd.tripPool.value) + "]"];
    }
    if cmd.limit.Some? {
      parts := parts + ["MAX " + IntToString(cmd.limit.value)];
    }
    assert parts == RenderParts(cmd);
    line := Trim(JoinWithSpaces(parts));
  }

  // ---------------------------------------------------------------------------
  // What the line shows
  // ---------------------------------------------------------------------------

  /** Every line starts with the kind, a space and the property's
      abbreviation; trimming never cuts into them. */
  lemma {:induction false} RenderedLineStarts(cmd: TripPropertyCommand)
    ensures IsPrefix(KindText(cmd.kind) + " " + PropertyAbbreviation(cmd.property), RenderedLine(cmd))
  {
    JoinStartsWithHead(RenderParts(cmd), PropertyAbbreviation(cmd.property));
    TrimKeepsPrefix(JoinWithSpaces(RenderParts(cmd)), KindText(cmd.kind) + " " + PropertyAbbreviation(cmd.property));
  }

  /** Joined parts start with the first part, a space and any prefix of the
      second. */
  lemma {:induction false} JoinStartsWithHead(parts: seq<string>, p: string)
    requires |parts| >= 2 && |parts[0]| > 0 && !IsSpace(parts[0][0])
    requires IsPrefix(p, parts[1]) && |p| > 0 && !IsSpace(p[|p| - 1])
    ensures IsPrefix(parts[0] + " " + p, JoinWithSpaces(parts))
    ensures |parts[0] + " " + p| > 0 && !IsSpace((parts[0] + " " + p)[0])
    ensures !IsSpace((parts[0] + " " + p)[|parts[0] + " " + p| - 1])
  {
    JoinWithSpacesHead(parts);
    var rest := JoinWithSpaces(parts[1..]);
    if |parts| > 2 {
      JoinWithSpacesHead(parts[1..]);
    }
    assert IsPrefix(p, rest);
    assert JoinWithSpaces(parts) == parts[0] + " " + rest;
  }

  /** The limit, when present, is the last token: the line is the limit-free
      tokens joined, then " MAX " and the limit. */
  lemma {:induction false} RenderedLimitLast(cmd: TripPropertyCommand, n: int)
    requires cmd.limit == Some(n)
    ensures RenderedLine(cmd) == JoinWithSpaces(RenderParts(cmd.(limit := None))) + " MAX " + IntToString(n)
  {
    RenderedLimitJoin(cmd, n);
    JoinStartsWithKind(cmd.(limit := None));
    LimitJoinEnds(JoinWithSpaces(RenderParts(cmd.(limit := None))), KindText(cmd.kind), IntToString(n));
  }

  lemma {:induction false} RenderedLimitJoin(cmd: TripPropertyCommand, n: int)
    requires cmd.limit == Some(n)
    ensures JoinWithSpaces(RenderParts(cmd)) == JoinWithSpaces(RenderParts(cmd.(limit := None))) + " MAX " + IntToString(n)
  {
    assert LeadingParts(cmd.(limit := None)) == LeadingParts(cmd);
    assert RenderParts(cmd.(limit := None)) == LeadingParts(cmd) + [];
    JoinWithSpacesSnoc(LeadingParts(cmd), "MAX " + IntToString(n));
    assert LeadingParts(cmd) + [] == LeadingParts(cmd);
  }

  /** The joined parts start with the kind. */
  lemma {:induction false} JoinStartsWithKind(cmd: TripPropertyCommand)
    ensures IsPrefix(KindText(cmd.kind), JoinWithSpaces(RenderParts(cmd)))
  {
    JoinWithSpacesHead(RenderParts(cmd));
  }

  /** A text that starts with the kind and ends with a number is its own trim. */
  lemma {:induction false} LimitJoinEnds(j: string, kind: string, digits: string)
    requires IsPrefix(kind, j) && |kind| > 0 && !IsSpace(kind[0])
    requires |digits| > 0 && !IsSpace(digits[|digits| - 1])
    ensures Trim(j + " MAX " + digits) == j + " MAX " + digits
  {
    var t := j + " MAX " + digits;
    assert t[0] == kind[0];
    assert t[|t| - 1] == digits[|digits| - 1];
    TrimNoop(t);
  }

  /** An AVOID line shows no pool, whatever pool the command carries. */
  lemma {:induction false} AvoidIgnoresPool(cmd: TripPropertyCommand, pool: Option<TripPool>)
    requires cmd.kind == Avoid
    ensures RenderedLine(cmd.(tripPool := pool)) == RenderedLine(cmd)
  {
    assert RenderParts(cmd.(tripPool := pool)) == RenderParts(cmd);
  }

  /** An AWARD line with a pool shows it in brackets, after the kind, the
      property and the range and before the limit. */
  lemma {:induction false} AwardShowsPool(cmd: TripPropertyCommand, pool: TripPool)
    requires cmd.kind == Award && cmd.tripPool == Some(pool)
    ensures RenderParts(cmd) == RenderParts(cmd.(tripPool := None, limit := None)) + ["[" + PoolText(pool) + "]"] + LimitToken(cmd)
  {
  }

  /** The note never appears. */
  lemma {:induction false} NoteNotRendered(cmd: TripPropertyCommand, note: Option<string>)
    ensures RenderedLine(cmd.(note := note)) == RenderedLine(cmd)
  {
    assert RenderParts(cmd.(note := note)) == RenderParts(cmd);
  }

  /** An empty qualifier is rendered like a missing one. */
  lemma {:induction false} EmptyQualifierNotRendered(cmd: TripPropertyCommand)
    requires cmd.qualifier == Some("")
    ensures RenderedLine(cmd) == RenderedLine(cmd.(qualifier := None))
  {
    assert RenderParts(cmd) == RenderParts(cmd.(qualifier := None));
  }

  /** A date range whose sides are both missing or empty is not rendered. */
  lemma {:induction false} EmptyRangeNotRendered(cmd: TripPropertyCommand)
    requires cmd.dateRange.Some? && SideText(cmd.dateRange.value.from) == "" && SideText(cmd.dateRange.value.to) == ""
    ensures RenderedLine(cmd) == RenderedLine(cmd.(dateRange := None))
  {
    assert RenderParts(cmd) == RenderParts(cmd.(dateRange := None));
  }

  /** A shown range has a missing side rendered as empty text. */
  lemma {:induction false} RangeWithOpenEnd(cmd: TripPropertyCommand, from: string)
    requires from != "" && cmd.dateRange == Some(DateRange(Some(from), None))
    ensures RangeToken(cmd) == [from + "-"]
  {
    assert from + "-" + "" == from + "-";
  }

  /** The line of an AWARD DESTINATION command into H++ at most twice. */
  lemma {:induction false} RenderedExample()
    ensures RenderedLine(TripPropertyCommand(Award, Destination, Some("DXB"), None, Some(HPlusPlus), Some(2), Some("Dubai")))
            == "AWARD DEST DXB [H++] MAX 2"
  {
    ExampleParts();
    ExampleJoin();
    TrimNoop("AWARD DEST DXB [H++] MAX 2");
  }

  lemma {:induction false} ExampleParts()
    ensures RenderParts(TripPropertyCommand(Award, Destination, Some("DXB"), None, Some(HPlusPlus), Some(2), Some("Dubai")))
            == ["AWARD", "DEST DXB", "[H++]", "MAX 2"]
  {
    var cmd := TripPropertyCommand(Award, Destination, Some("DXB"), None, Some(HPlusPlus), Some(2), Some("Dubai"));
    assert PropertyToText(cmd) == "DEST DXB";
    assert PoolText(HPlusPlus) == "H++";
    assert "[" + "H++" + "]" == "[H++]";
    assert IntToString(2) == "2";
    assert "MAX " + "2" == "MAX 2";
  }

  lemma {:induction false} ExampleJoin()
    ensures JoinWithSpaces(["AWARD", "DEST DXB", "[H++]", "MAX 2"]) == "AWARD DEST DXB [H++] MAX 2"
  {
    var parts := ["AWARD", "DEST DXB", "[H++]", "MAX 2"];
    JoinWithSpacesHead(parts);
    assert parts[1..] == ["DEST DXB", "[H++]", "MAX 2"];
    JoinWithSpacesHead(parts[1..]);
    assert parts[1..][1..] == ["[H++]", "MAX 2"];
    JoinWithSpacesHead(parts[1..][1..]);
    assert parts[1..][1..][1..] == ["MAX 2"];
  }
}
