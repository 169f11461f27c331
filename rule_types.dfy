/** The engine's shared vocabulary: the canonical trip-property command and the
    trip it is evaluated against (src/rules/types.ts, src/data/sampleTrips.ts). */
module RuleTypes {
  import opened Wrappers

  /** Trip pools, lowest to highest. `N` is used by the preference layer
      although the published type omits it. */
  datatype TripPool = LMinusMinus | LMinus | L | N | H | HPlus | HPlusPlus

  function PoolText(p: TripPool): (r: string)
    ensures |r| > 0 && r[0] in "LNH" && r[|r| - 1] in "-LNH+"
  {
    match p
    case LMinusMinus => "L--"
    case LMinus => "L-"
    case L => "L"
    case N => "N"
    case H => "H"
    case HPlus => "H+"
    case HPlusPlus => "H++"
  }

  /** Directive polarity. */
  datatype CommandKind = Award | Avoid

  function KindText(k: CommandKind): string {
    match k
    case Award => "AWARD"
    case Avoid => "AVOID"
  }

  datatype TripProperty =
    | Destination
    | TripNumber
    | TripLength
    | CreditTime
    | BlockTime
    | LayoverWithLength
    | OnDutyWithin
    | TripStartTime
    | TripReportTime

  datatype DateRange = DateRange(from: Option<string>, to: Option<string>)

  /** One trip-property command, before it is turned into text. */
  datatype TripPropertyCommand = TripPropertyCommand(
    kind: CommandKind,
    property: TripProperty,
    qualifier: Option<string>,
    dateRange: Option<DateRange>,
    tripPool: Option<TripPool>,
    limit: Option<int>,
    note: Option<string>)

  /** A trip of the catalogue. `layoverHoursEstimate` and `reportTimeLocal` are
      the optional fields the matcher reads although the published record type
      does not declare them; the estimate is a whole number of hours here. */
  datatype Trip = Trip(
    tripNumber: string,
    route: string,
    departureBase: string,
    planningPeriod: string,
    tafb: string,
    tripCredit: string,
    tripDays: int,
    flyingHours: string,
    dutyHours: string,
    layoverHoursEstimate: Option<int>,
    reportTimeLocal: Option<string>)

  /** The AWARD-only pool rule every builder keeps: an AVOID command carries
      no pool. */
  predicate PoolOnlyOnAward(c: TripPropertyCommand) {
    c.kind == Avoid ==> c.tripPool == None
  }
}
