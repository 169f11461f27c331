/** Which trips a command affects (src/lib/tripMatching.ts).

    The matcher parses the command's qualifier once, with a grammar chosen by
    the property, into a `Criterion`, and then keeps, in order, the trips that
    satisfy it. A qualifier that is absent, empty or does not parse, and every
    property without a grammar, select no trip at all; nothing ever fails. */
module TripMatching {
  import opened Wrappers
  import opened Text
  import opened Sequences
  import opened RuleTypes

  // ---------------------------------------------------------------------------
  // Clock times: ^(\d{1,3}):(\d{2})$
  // ---------------------------------------------------------------------------

  /** `parseHoursMinutesToMinutes`: the total number of minutes of a string
      that is one to three digits, a colon and two digits; nothing otherwise.
      The minutes part is not checked against 59. */
  function ParseHoursMinutes(s: string): Option<nat> {
    var k := |s| - 3;
    if 1 <= k <= 3 && s[k] == ':' && IsDigits(s[..k]) && IsDigits(s[k + 1..]) then
      Some(DigitsValue(s[..k]) * 60 + DigitsValue(s[k + 1..]))
    else
      None
  }

  /** `s` is at most `n` hour digits (at least one), a colon and two digits. */
  predicate IsClockShape(s: string, n: nat) {
    var k := |s| - 3;
    1 <= k <= n && s[k] == ':' && IsDigits(s[..k]) && IsDigits(s[k + 1..])
  }

  /** `s` is hours `h` (one to three digits), a colon and minutes `m` (two digits). */
  predicate IsClockText(s: string, h: string, m: string) {
    IsDigits(h) && 1 <= |h| <= 3 && IsDigits(m) && |m| == 2 && s == h + ":" + m
  }

  /** The parser accepts exactly the clock texts, and reads them as
      hours * 60 + minutes. */
  lemma {:induction false} ParseHoursMinutesSpec(s: string)
    ensures ParseHoursMinutes(s).Some? <==> exists h, m :: IsClockText(s, h, m)
    ensures forall h, m :: IsClockText(s, h, m) ==>
              ParseHoursMinutes(s) == Some(DigitsValue(h) * 60 + DigitsValue(m))
  {
    forall h, m | IsClockText(s, h, m)
      ensures ParseHoursMinutes(s) == Some(DigitsValue(h) * 60 + DigitsValue(m))
    {
      ParseClockText(h, m);
    }
    if ParseHoursMinutes(s).Some? {
      var k := |s| - 3;
      assert IsClockText(s, s[..k], s[k + 1..]);
    }
  }

  /** Hours, a colon and two minute digits read as hours * 60 + minutes. */
  lemma {:induction false} ParseClockText(h: string, m: string)
    requires IsDigits(h) && 1 <= |h| <= 3 && IsDigits(m) && |m| == 2
    ensures ParseHoursMinutes(h + ":" + m) == Some(DigitsValue(h) * 60 + DigitsValue(m))
  {
    var s := h + ":" + m;
    assert s[..|h|] == h;
    assert s[|h| + 1..] == m;
  }

  // ---------------------------------------------------------------------------
  // Comparison operators: ([<>]=?)
  // ---------------------------------------------------------------------------

  datatype Comparison = Less | AtMost | Greater | AtLeast

  /** The operator as it is written in a qualifier. */
  function ComparisonText(op: Comparison): string {
    match op
    case Less => "<"
    case AtMost => "<="
    case Greater => ">"
    case AtLeast => ">="
  }

  /** `value op bound`. */
  predicate Holds(op: Comparison, value: int, bound: int) {
    match op
    case Less => value < bound
    case AtMost => value <= bound
    case Greater => value > bound
    case AtLeast => value >= bound
  }

  /** `([<>]=?)` at index `i`: the operator and the index after it. The
      optional `=` is taken whenever it is there; giving it back can never
      help, because the next item of every pattern cannot start with `=`. */
  function OperatorAt(s: string, i: nat): (r: Option<(Comparison, nat)>)
    ensures r.Some? ==> i < r.value.1 <= |s|
    ensures r.Some? ==> s[i..r.value.1] == ComparisonText(r.value.0)
  {
    if i < |s| && (s[i] == '<' || s[i] == '>') then
      var orEqual := i + 1 < |s| && s[i + 1] == '=';
      var op := if s[i] == '<' then (if orEqual then AtMost else Less)
                else (if orEqual then AtLeast else Greater);
      Some((op, if orEqual then i + 2 else i + 1))
    else
      None
  }

  /** An operator is read exactly when `<` or `>` stands at `i`, and it is the
      two-character one exactly when `=` follows. */
  lemma {:induction false} OperatorAtReads(s: string, i: nat)
    ensures OperatorAt(s, i).Some? <==> i < |s| && (s[i] == '<' || s[i] == '>')
    ensures OperatorAt(s, i).Some? ==>
              (OperatorAt(s, i).value.1 == i + 2 <==> i + 1 < |s| && s[i + 1] == '=')
  {
  }

  /** `\s*` from index `p`: as far as the whitespace goes (handing spaces back
      cannot help, the next item is a digit). */
  function SkipSpaces(s: string, p: nat): (q: nat)
    requires p <= |s|
    ensures p <= q <= |s| && AllSpace(s[p..q]) && (q < |s| ==> !IsSpace(s[q]))
  {
    var k := LeadingSpaceCount(s[p..]);
    assert s[p..][..k] == s[p..p + k];
    p + k
  }

  /** How many hour digits a clock pattern allows. */
  type HourWidth = k: nat | 1 <= k <= 3 witness 1

  /** Which capture groups follow the operator. */
  datatype BoundPattern =
    | ClockPattern(maxHourDigits: HourWidth)   // (\d{1,n}:\d{2})
    | LayoverPattern                     // (\d{1,3})(?::(\d{2}))?

  /** What one match captured: the operator, the second group and, for the
      layover pattern, the optional third group. */
  datatype Capture = Capture(op: Comparison, text: string, minutes: Option<string>)

  /** `\d{1,k}:\d{2}` at index `p`, trying the longest hour part first. */
  function ClockTextAt(s: string, p: nat, k: nat): (r: Option<string>)
    requires k <= 3
    ensures r.Some? ==> IsClockShape(r.value, k)
    decreases k
  {
    if k == 0 then None
    else if p + k + 3 <= |s| && IsDigits(s[p..p + k]) && s[p + k] == ':'
            && IsDigits(s[p + k + 1..p + k + 3]) then
      var t := s[p..p + k + 3];
      assert t[..k] == s[p..p + k] && t[k + 1..] == s[p + k + 1..p + k + 3];
      Some(t)
    else ClockTextAt(s, p, k - 1)
  }

  /** `\d{1,k}` at index `p`, greedy: the number of digits taken, 0 for none. */
  function GreedyDigitsAt(s: string, p: nat, k: nat): (j: nat)
    requires p <= |s|
    ensures j <= k && p + j <= |s| && IsDigits(s[p..p + j])
    decreases k
  {
    if k == 0 then 0
    else if p + k <= |s| && IsDigits(s[p..p + k]) then k
    else GreedyDigitsAt(s, p, k - 1)
  }

  /** `(?::(\d{2}))?` at index `q`: the two minute digits when present. */
  function OptionalMinutesAt(s: string, q: nat): (r: Option<string>)
    ensures r.Some? ==> IsDigits(r.value) && |r.value| == 2
  {
    if q + 3 <= |s| && s[q] == ':' && IsDigits(s[q + 1..q + 3]) then Some(s[q + 1..q + 3])
    else None
  }

  /** SkipSpaces stops right after the spaces `w` written at index `p` when
      they are not followed by another space. */
  lemma {:induction false} SkipSpacesOver(s: string, p: nat, w: string)
    requires p + |w| <= |s| && s[p..p + |w|] == w && AllSpace(w)
    requires p + |w| < |s| ==> !IsSpace(s[p + |w|])
    ensures SkipSpaces(s, p) == p + |w|
  {
    assert s[p..][..|w|] == w;
    LeadingSpaceCountOf(s[p..], |w|);
  }

  /** GreedyDigitsAt takes exactly the `n` digits at index `p` when no
      further digit follows them. */
  lemma {:induction false} GreedyDigitsOf(s: string, p: nat, k: nat, n: nat)
    requires 1 <= n <= k && p + n <= |s| && IsDigits(s[p..p + n])
    requires n < k && p + n < |s| ==> !IsDigit(s[p + n])
    ensures GreedyDigitsAt(s, p, k) == n
    decreases k
  {
    if k > n {
      assert !(p + k <= |s| && IsDigits(s[p..p + k])) by {
        if p + k <= |s| { assert s[p..p + k][n] == s[p + n]; }
      }
      GreedyDigitsOf(s, p, k - 1, n);
    }
  }

  /** A capture the matcher can read as a number. */
  predicate WellFormedCapture(c: Capture, pat: BoundPattern) {
    match pat
    case ClockPattern(n) => c.minutes == None && IsClockShape(c.text, n)
    case LayoverPattern =>
      IsDigits(c.text) && 1 <= |c.text| <= 3 && (c.minutes.Some? ==> IsDigits(c.minutes.value) && |c.minutes.value| == 2)
  }

  /** The whole pattern, anchored at index `i`. */
  function MatchAt(s: string, i: nat, pat: BoundPattern): (r: Option<Capture>)
    ensures r.Some? ==> WellFormedCapture(r.value, pat)
  {
    match OperatorAt(s, i)
    case None => None
    case Some((op, q)) =>
      var p := SkipSpaces(s, q);
      match pat
      case ClockPattern(n) =>
        (match ClockTextAt(s, p, n)
         case None => None
         case Some(t) => Some(Capture(op, t, None)))
      case LayoverPattern =>
        var j := GreedyDigitsAt(s, p, 3);
        if j == 0 then None else Some(Capture(op, s[p..p + j], OptionalMinutesAt(s, p + j)))
  }

  /** An unanchored `match`: the first start index, from `from` on, at which
      the pattern matches, with what it captured there. */
  function LeftmostMatch(s: string, pat: BoundPattern, from: nat): (r: Option<(nat, Capture)>)
    ensures r.Some? ==> from <= r.value.0 < |s| && MatchAt(s, r.value.0, pat) == Some(r.value.1)
    decreases |s| - from
  {
    if from >= |s| then None
    else
      match MatchAt(s, from, pat)
      case Some(c) => Some((from, c))
      case None => LeftmostMatch(s, pat, from + 1)
  }

  /** The match found is the first one: the pattern matches at no earlier
      start index, and when nothing is found it matches nowhere. */
  lemma {:induction false} LeftmostMatchIsFirst(s: string, pat: BoundPattern, from: nat, j: nat)
    requires from <= j < |s|
    requires LeftmostMatch(s, pat, from).Some? ==> j < LeftmostMatch(s, pat, from).value.0
    ensures MatchAt(s, j, pat).None?
    decreases j - from
  {
    if j > from {
      LeftmostMatchIsFirst(s, pat, from + 1, j);
    }
  }

  /** Whatever the first match captured is a readable number. */
  lemma {:induction false} LeftmostMatchWellFormed(s: string, pat: BoundPattern)
    requires LeftmostMatch(s, pat, 0).Some?
    ensures WellFormedCapture(LeftmostMatch(s, pat, 0).value.1, pat)
  {
  }

  // ---------------------------------------------------------------------------
  // Trip length: ^(\d+)D$, ^(\d+)-(\d+)D$, ^>=\s*(\d+)D$, ^<=\s*(\d+)D$
  // ---------------------------------------------------------------------------

  /** The length of the longest run of digits at the start of `s`. */
  function DigitRun(s: string): (k: nat)
    ensures k <= |s| && IsDigits(s[..k]) && (k < |s| ==> !IsDigit(s[k]))
    decreases |s|
  {
    if s == [] || !IsDigit(s[0]) then 0
    else
      var k := 1 + DigitRun(s[1..]);
      assert s[..k] == [s[0]] + s[1..][..k - 1];
      k
  }

  /** DigitRun stops right after the digits `a` that start `s`, when no
      further digit follows them. */
  lemma {:induction false} DigitRunOf(s: string, a: string)
    requires IsPrefix(a, s) && IsDigits(a)
    requires |a| < |s| ==> !IsDigit(s[|a|])
    ensures DigitRun(s) == |a|
    decreases |a|
  {
    if a != [] {
      assert s[0] == a[0];
      assert IsPrefix(a[1..], s[1..]) by { assert s[1..][..|a| - 1] == a[1..]; }
      DigitRunOf(s[1..], a[1..]);
    }
  }

  /** `^(\d+)D$`. */
  function DigitsThenD(s: string): Option<nat> {
    if |s| >= 2 && s[|s| - 1] == 'D' && IsDigits(s[..|s| - 1]) then Some(DigitsValue(s[..|s| - 1]))
    else None
  }

  /** `^(\d+)-(\d+)D$`: the first digit run must be followed by the dash,
      because `\d+` cannot give back a digit that would be a dash. */
  function RangeThenD(s: string): Option<(nat, nat)> {
    if |s| >= 1 && s[|s| - 1] == 'D' then
      var body := s[..|s| - 1];
      var a := DigitRun(body);
      if 1 <= a && a + 1 < |body| && body[a] == '-' && IsDigits(body[a + 1..]) then
        Some((DigitsValue(body[..a]), DigitsValue(body[a + 1..])))
      else None
    else None
  }

  /** `^op\s*(\d+)D$` for the two-character operator `op`. */
  function BoundThenD(op: string, s: string): Option<nat>
    requires |op| == 2
  {
    if IsPrefix(op, s) then DigitsThenD(s[SkipSpaces(s, 2)..]) else None
  }

  /** The structured comparison a qualifier stands for. */
  datatype Criterion =
    | RouteIncludes(text: string)
    | DaysEqual(days: nat)
    | DaysBetween(minDays: nat, maxDays: nat)
    | DaysAtLeast(days: nat)
    | DaysAtMost(days: nat)
    | CreditBound(op: Comparison, minutes: nat)
    | LayoverBound(op: Comparison, minutes: nat)
    | ReportBound(op: Comparison, minutes: nat)

  /** The four trip-length forms, tried in the source's order. */
  function ParseTripLength(q: string): (r: Option<Criterion>)
    ensures r.Some? ==> CriterionFits(TripLength, r.value)
  {
    match DigitsThenD(q)
    case Some(n) => Some(DaysEqual(n))
    case None =>
      match RangeThenD(q)
      case Some((a, b)) => Some(DaysBetween(a, b))
      case None =>
        match BoundThenD(">=", q)
        case Some(n) => Some(DaysAtLeast(n))
        case None =>
          match BoundThenD("<=", q)
          case Some(n) => Some(DaysAtMost(n))
          case None => None
  }

  predicate ExactForm(q: string, d: string) {
    IsDigits(d) && |d| > 0 && q == d + "D"
  }

  predicate RangeForm(q: string, a: string, b: string) {
    IsDigits(a) && |a| > 0 && IsDigits(b) && |b| > 0 && q == a + "-" + b + "D"
  }

  predicate BoundForm(op: string, q: string, w: string, d: string) {
    AllSpace(w) && IsDigits(d) && |d| > 0 && q == op + w + d + "D"
  }

  /** Some trip-length form fits the (trimmed) qualifier. */
  ghost predicate IsTripLengthText(q: string) {
    || (exists d :: ExactForm(q, d))
    || (exists a, b :: RangeForm(q, a, b))
    || (exists w, d :: BoundForm(">=", q, w, d))
    || (exists w, d :: BoundForm("<=", q, w, d))
  }

  lemma {:induction false} DigitsThenDOf(d: string)
    requires IsDigits(d) && |d| > 0
    ensures DigitsThenD(d + "D") == Some(DigitsValue(d))
  {
    assert (d + "D")[..|d|] == d;
  }

  /** `"{n}D"` is read as exactly n days. */
  lemma {:induction false} ExactFormAccepted(d: string)
    requires IsDigits(d) && |d| > 0
    ensures ParseTripLength(d + "D") == Some(DaysEqual(DigitsValue(d)))
  {
    DigitsThenDOf(d);
  }

  /** `"{a}-{b}D"` is read as the day range a..b. */
  lemma {:induction false} RangeFormAccepted(a: string, b: string)
    requires IsDigits(a) && |a| > 0 && IsDigits(b) && |b| > 0
    ensures ParseTripLength(a + "-" + b + "D") == Some(DaysBetween(DigitsValue(a), DigitsValue(b)))
  {
    var q := a + "-" + b + "D";
    assert q[|a|] == '-';
    assert DigitsThenD(q) == None;
    var body := q[..|q| - 1];
    assert body == a + "-" + b;
    assert body[..|a|] == a;
    assert body[|a| + 1..] == b;
    DigitRunOf(body, a);
  }

  lemma {:induction false} BoundFormRead(op: string, w: string, d: string)
    requires |op| == 2 && !IsSpace(op[0]) && !IsSpace(op[1])
    requires AllSpace(w) && IsDigits(d) && |d| > 0
    ensures BoundThenD(op, op + w + d + "D") == Some(DigitsValue(d))
  {
    var q := op + w + d + "D";
    ConcatParts(op, w, d, "D");
    assert q[2 + |w|..] == d + "D";
    assert q[2 + |w|] == d[0];
    SkipSpacesOver(q, 2, w);
    DigitsThenDOf(d);
  }

  /** `">= {n}D"`, with any spacing after the operator, is read as at least n days. */
  lemma {:induction false} AtLeastFormAccepted(w: string, d: string)
    requires AllSpace(w) && IsDigits(d) && |d| > 0
    ensures ParseTripLength(">=" + w + d + "D") == Some(DaysAtLeast(DigitsValue(d)))
  {
    var q := ">=" + w + d + "D";
    assert q[0] == '>';
    assert DigitsThenD(q) == None by { assert !IsDigit(q[0]); }
    assert RangeThenD(q) == None by { assert DigitRun(q[..|q| - 1]) == 0 by { assert q[..|q| - 1][0] == '>'; } }
    BoundFormRead(">=", w, d);
  }

  /** `"<= {n}D"`, with any spacing after the operator, is read as at most n days. */
  lemma {:induction false} AtMostFormAccepted(w: string, d: string)
    requires AllSpace(w) && IsDigits(d) && |d| > 0
    ensures ParseTripLength("<=" + w + d + "D") == Some(DaysAtMost(DigitsValue(d)))
  {
    var q := "<=" + w + d + "D";
    assert q[0] == '<';
    assert DigitsThenD(q) == None by { assert !IsDigit(q[0]); }
    assert RangeThenD(q) == None by { assert DigitRun(q[..|q| - 1]) == 0 by { assert q[..|q| - 1][0] == '<'; } }
    assert BoundThenD(">=", q) == None by { assert q[..2] != ">="; }
    BoundFormRead("<=", w, d);
  }

  /** Whatever the trip-length parser accepts has one of the four forms, and
      the numbers it reads are the ones written there. */
  lemma {:induction false} ParseTripLengthSound(q: string)
    requires ParseTripLength(q).Some?
    ensures IsTripLengthText(q)
    ensures match ParseTripLength(q).value {
              case DaysEqual(n) => exists d :: ExactForm(q, d) && DigitsValue(d) == n
              case DaysBetween(a, b) =>
                exists x, y :: RangeForm(q, x, y) && DigitsValue(x) == a && DigitsValue(y) == b
              case DaysAtLeast(n) => exists w, d :: BoundForm(">=", q, w, d) && DigitsValue(d) == n
              case DaysAtMost(n) => exists w, d :: BoundForm("<=", q, w, d) && DigitsValue(d) == n
              case _ => false
            }
  {
    if DigitsThenD(q).Some? {
      var d := q[..|q| - 1];
      assert ExactForm(q, d);
    } else if RangeThenD(q).Some? {
      var body := q[..|q| - 1];
      var a := DigitRun(body);
      assert body == body[..a] + "-" + body[a + 1..];
      assert RangeForm(q, body[..a], body[a + 1..]);
    } else if BoundThenD(">=", q).Some? {
      BoundSound(">=", q);
    } else {
      BoundSound("<=", q);
    }
  }

  lemma {:induction false} BoundSound(op: string, q: string)
    requires |op| == 2 && BoundThenD(op, q).Some?
    ensures exists w, d :: BoundForm(op, q, w, d) && DigitsValue(d) == BoundThenD(op, q).value
  {
    var p := SkipSpaces(q, 2);
    var t := q[p..];
    var d := t[..|t| - 1];
    assert q == op + q[2..p] + d + "D";
    assert BoundForm(op, q, q[2..p], d);
  }

  // ---------------------------------------------------------------------------
  // The matcher
  // ---------------------------------------------------------------------------

  /** The comparison a command's qualifier encodes, by property; `None` means
      the command selects nothing. */
  function ParseCriterion(cmd: TripPropertyCommand): (r: Option<Criterion>)
    ensures r.Some? ==> cmd.qualifier.Some? && cmd.qualifier != Some("") && CriterionFits(cmd.property, r.value)
  {
    match cmd.qualifier
    case None => None
    case Some(q) =>
      if q == "" then None
      else
        match cmd.property
        case Destination => Some(RouteIncludes(ToUpper(q)))
        case TripLength => ParseTripLength(Trim(q))
        case CreditTime => ClockCriterion(q, 3, false)
        case TripReportTime => ClockCriterion(q, 2, true)
        case LayoverWithLength => LayoverCriterion(q)
        case _ => None
  }

  /** The criterion kind each property's grammar produces. */
  predicate CriterionFits(p: TripProperty, c: Criterion) {
    match p
    case Destination => c.RouteIncludes?
    case TripLength => c.DaysEqual? || c.DaysBetween? || c.DaysAtLeast? || c.DaysAtMost?
    case CreditTime => c.CreditBound?
    case TripReportTime => c.ReportBound?
    case LayoverWithLength => c.LayoverBound?
    case _ => false
  }

  /** `([<>]=?)\s*(\d{1,3})(?::(\d{2}))?` searched anywhere in the qualifier;
      the bound is hours * 60 plus the minutes, 0 when they are absent. */
  function LayoverCriterion(q: string): (r: Option<Criterion>)
    ensures r.Some? ==> r.value.LayoverBound?
  {
    match LeftmostMatch(q, LayoverPattern, 0)
    case None => None
    case Some((_, c)) =>
      var hours := DigitsValue(c.text);
      var mins := match c.minutes case Some(mm) => DigitsValue(mm) case None => 0;
      Some(LayoverBound(c.op, hours * 60 + mins))
  }

  /** `([<>]=?)\s*(\d{1,n}:\d{2})` searched anywhere in the qualifier; the
      captured time is read by ParseHoursMinutes, whose failure would also
      select nothing. */
  function ClockCriterion(q: string, n: HourWidth, report: bool): (r: Option<Criterion>)
    ensures r.Some? ==> if report then r.value.ReportBound? else r.value.CreditBound?
  {
    match LeftmostMatch(q, ClockPattern(n), 0)
    case None => None
    case Some((_, c)) =>
      match ParseHoursMinutes(c.text)
      case None => None
      case Some(m) => if report then Some(ReportBound(c.op, m)) else Some(CreditBound(c.op, m))
  }

  /** Whether one trip satisfies a parsed criterion. Trips without a readable
      credit, without a layover estimate, or without a readable report time
      never satisfy the corresponding bound. */
  predicate Satisfies(c: Criterion, t: Trip) {
    match c
    case RouteIncludes(text) => Includes(ToUpper(t.route), text)
    case DaysEqual(n) => t.tripDays == n
    case DaysBetween(lo, hi) => t.tripDays >= lo && t.tripDays <= hi
    case DaysAtLeast(n) => t.tripDays >= n
    case DaysAtMost(n) => t.tripDays <= n
    case CreditBound(op, bound) =>
      (match ParseHoursMinutes(t.tripCredit)
       case None => false
       case Some(m) => Holds(op, m, bound))
    case LayoverBound(op, bound) =>
      (match t.layoverHoursEstimate
       case None => false
       case Some(h) => Holds(op, h * 60, bound))
    case ReportBound(op, bound) =>
      (match t.reportTimeLocal
       case None => false
       case Some(rt) =>
         rt != "" && match ParseHoursMinutes(rt) case None => false case Some(m) => Holds(op, m, bound))
  }

  /** `trips.filter(...)`: exactly the trips satisfying `c`, each as often as
      it occurs, in their original order. */
  function FilterTrips(trips: seq<Trip>, c: Criterion): (r: seq<Trip>)
    ensures |r| <= |trips|
    ensures IsSubsequence(r, trips)
    ensures forall t :: t in r <==> t in trips && Satisfies(c, t)
    decreases |trips|
  {
    if trips == [] then []
    else
      var rest := FilterTrips(trips[1..], c);
      assert trips == [trips[0]] + trips[1..];
      if Satisfies(c, trips[0]) then
        SubsequenceCons(trips[0], rest, trips[1..]);
        [trips[0]] + rest
      else
        SubsequenceSkip(trips[0], rest, trips[1..]);
        rest
  }

  /** The filter keeps every satisfying trip as often as it occurs, and drops
      every other one entirely. */
  lemma {:induction false} FilterTripsCounts(trips: seq<Trip>, c: Criterion)
    ensures forall t :: multiset(FilterTrips(trips, c))[t] == if Satisfies(c, t) then multiset(trips)[t] else 0
    decreases |trips|
  {
    if trips != [] {
      FilterTripsCounts(trips[1..], c);
      assert trips == [trips[0]] + trips[1..];
      assert multiset(trips) == multiset{trips[0]} + multiset(trips[1..]);
    }
  }

  /** `getTripsAffectedByCommand`: total over every command and trip list. The
      result keeps the input order, and a missing or empty qualifier, like any
      property the matcher has no grammar for, selects nothing. */
  function TripsAffectedByCommand(cmd: TripPropertyCommand, trips: seq<Trip>): (r: seq<Trip>)
    ensures IsSubsequence(r, trips)
    ensures cmd.qualifier.None? || cmd.qualifier == Some("") ==> r == []
    ensures cmd.property in {TripNumber, BlockTime, OnDutyWithin, TripStartTime} ==> r == []
  {
    match ParseCriterion(cmd)
    case None => []
    case Some(c) => FilterTrips(trips, c)
  }

  // ---------------------------------------------------------------------------
  // What each property selects
  // ---------------------------------------------------------------------------

  /** DESTINATION: the trips whose upper-cased route contains the upper-cased
      qualifier. */
  lemma {:induction false} DestinationSelects(cmd: TripPropertyCommand, trips: seq<Trip>, q: string)
    requires cmd.property == Destination && cmd.qualifier == Some(q) && q != ""
    ensures forall t :: t in TripsAffectedByCommand(cmd, trips) <==>
              t in trips && Includes(ToUpper(t.route), ToUpper(q))
  {
  }

  /** TRIP_LENGTH `"{n}D"` (after trimming): the trips of exactly n days. */
  lemma {:induction false} TripLengthExactSelects(cmd: TripPropertyCommand, trips: seq<Trip>, q: string, d: string)
    requires cmd.property == TripLength && cmd.qualifier == Some(q) && ExactForm(Trim(q), d)
    ensures forall t :: t in TripsAffectedByCommand(cmd, trips) <==>
              t in trips && t.tripDays == DigitsValue(d)
  {
    ExactFormAccepted(d);
  }

  /** TRIP_LENGTH `"{a}-{b}D"`: the trips of a to b days, both included. */
  lemma {:induction false} TripLengthRangeSelects(cmd: TripPropertyCommand, trips: seq<Trip>, q: string, a: string, b: string)
    requires cmd.property == TripLength && cmd.qualifier == Some(q) && RangeForm(Trim(q), a, b)
    ensures forall t :: t in TripsAffectedByCommand(cmd, trips) <==>
              t in trips && DigitsValue(a) <= t.tripDays <= DigitsValue(b)
  {
    RangeFormAccepted(a, b);
  }

  /** TRIP_LENGTH `">= {n}D"`: the trips of at least n days. */
  lemma {:induction false} TripLengthAtLeastSelects(cmd: TripPropertyCommand, trips: seq<Trip>, q: string, w: string, d: string)
    requires cmd.property == TripLength && cmd.qualifier == Some(q) && BoundForm(">=", Trim(q), w, d)
    ensures forall t :: t in TripsAffectedByCommand(cmd, trips) <==>
              t in trips && t.tripDays >= DigitsValue(d)
  {
    AtLeastFormAccepted(w, d);
  }

  /** TRIP_LENGTH `"<= {n}D"`: the trips of at most n days. */
  lemma {:induction false} TripLengthAtMostSelects(cmd: TripPropertyCommand, trips: seq<Trip>, q: string, w: string, d: string)
    requires cmd.property == TripLength && cmd.qualifier == Some(q) && BoundForm("<=", Trim(q), w, d)
    ensures forall t :: t in TripsAffectedByCommand(cmd, trips) <==>
              t in trips && t.tripDays <= DigitsValue(d)
  {
    AtMostFormAccepted(w, d);
  }

  /** TRIP_LENGTH text in none of the four forms selects nothing. */
  lemma {:induction false} TripLengthOtherTextSelectsNothing(cmd: TripPropertyCommand, trips: seq<Trip>, q: string)
    requires cmd.property == TripLength && cmd.qualifier == Some(q) && !IsTripLengthText(Trim(q))
    ensures TripsAffectedByCommand(cmd, trips) == []
  {
    if ParseTripLength(Trim(q)).Some? {
      ParseTripLengthSound(Trim(q));
    }
  }

  /** A clock-bound qualifier in canonical shape: an operator, spaces, hours,
      a colon, two minute digits, and anything after them. */
  function ClockQualifier(op: Comparison, w: string, h: string, m: string, rest: string): string {
    ComparisonText(op) + w + (h + ":" + m) + rest
  }

  /** A layover qualifier in canonical shape: an operator, spaces, hours and
      optionally a colon with two minute digits. */
  function LayoverQualifier(op: Comparison, w: string, h: string, minutes: Option<string>): string {
    ComparisonText(op) + w + (h + match minutes case Some(m) => ":" + m case None => "")
  }

  /** The minutes a layover qualifier in canonical shape stands for. */
  function LayoverQualifierMinutes(h: string, minutes: Option<string>): nat
    requires IsDigits(h) && (minutes.Some? ==> IsDigits(minutes.value))
  {
    DigitsValue(h) * 60 + match minutes case Some(m) => DigitsValue(m) case None => 0
  }

  lemma {:induction false} ConcatParts(a: string, b: string, c: string, d: string)
    ensures var q := a + b + c + d;
            q[..|a|] == a && q[|a|..|a| + |b|] == b && q[|a| + |b|..|a| + |b| + |c|] == c
            && q[|a| + |b| + |c|..] == d
  {
  }

  /** The operator and the spaces after it are read as written, when a digit follows. */
  lemma {:induction false} OperatorThenSpaces(q: string, op: Comparison, w: string)
    requires IsPrefix(ComparisonText(op), q) && AllSpace(w)
    requires |ComparisonText(op)| + |w| < |q| && q[|ComparisonText(op)|..|ComparisonText(op)| + |w|] == w
    requires IsDigit(q[|ComparisonText(op)| + |w|])
    ensures OperatorAt(q, 0) == Some((op, |ComparisonText(op)|))
    ensures SkipSpaces(q, |ComparisonText(op)|) == |ComparisonText(op)| + |w|
  {
    var o := |ComparisonText(op)|;
    assert q[..o] == ComparisonText(op);
    if o == 1 {
      if |w| > 0 { assert q[1] == q[o..o + |w|][0]; }
      assert q[1] != '=';
    }
    SkipSpacesOver(q, o, w);
  }

  /** A canonical clock qualifier is matched right at the start: the operator,
      and as captured time the hours, colon and minutes, whatever follows. */
  lemma {:induction false} ClockQualifierMatched(op: Comparison, w: string, h: string, m: string, rest: string, n: HourWidth)
    requires AllSpace(w) && IsDigits(h) && 1 <= |h| <= n && IsDigits(m) && |m| == 2
    ensures LeftmostMatch(ClockQualifier(op, w, h, m, rest), ClockPattern(n), 0)
            == Some((0, Capture(op, h + ":" + m, None)))
  {
    var q := ClockQualifier(op, w, h, m, rest);
    var t := h + ":" + m;
    ConcatParts(ComparisonText(op), w, t, rest);
    var p := |ComparisonText(op)| + |w|;
    assert q[p] == t[0] == h[0];
    OperatorThenSpaces(q, op, w);
    ClockTextAtLongest(q, p, n, h, m);
    assert MatchAt(q, 0, ClockPattern(n)) == Some(Capture(op, t, None));
  }

  lemma {:induction false} ClockTextAtLongest(q: string, p: nat, k: nat, h: string, m: string)
    requires IsDigits(h) && 1 <= |h| <= k <= 3 && IsDigits(m) && |m| == 2
    requires p + |h| + 3 <= |q| && q[p..p + |h| + 3] == h + ":" + m
    ensures ClockTextAt(q, p, k) == Some(h + ":" + m)
    decreases k
  {
    var t := q[p..p + |h| + 3];
    assert q[p..p + |h|] == t[..|h|] == h;
    assert q[p + |h| + 1..p + |h| + 3] == t[|h| + 1..] == m;
    if k > |h| {
      assert !(p + k + 3 <= |q| && IsDigits(q[p..p + k])) by {
        if p + k + 3 <= |q| { assert q[p..p + k][|h|] == q[p + |h|] == t[|h|]; }
      }
      ClockTextAtLongest(q, p, k - 1, h, m);
    } else {
      assert q[p + k] == ':';
    }
  }

  /** The trip's credit reads as a clock time in relation `op` to `bound`. */
  predicate CreditIs(t: Trip, op: Comparison, bound: int) {
    ParseHoursMinutes(t.tripCredit).Some? && Holds(op, ParseHoursMinutes(t.tripCredit).value, bound)
  }

  /** The trip has a local report time that reads as a clock time in
      relation `op` to `bound`. */
  predicate ReportTimeIs(t: Trip, op: Comparison, bound: int) {
    t.reportTimeLocal.Some? && ParseHoursMinutes(t.reportTimeLocal.value).Some?
    && Holds(op, ParseHoursMinutes(t.reportTimeLocal.value).value, bound)
  }

  /** Once the qualifier is parsed, a command selects exactly the trips that
      satisfy the criterion. */
  lemma {:induction false} SelectedBy(cmd: TripPropertyCommand, trips: seq<Trip>, c: Criterion)
    requires ParseCriterion(cmd) == Some(c)
    ensures forall t :: t in TripsAffectedByCommand(cmd, trips) <==> t in trips && Satisfies(c, t)
  {
  }

  /** The clock criterion of a qualifier in the canonical shape. */
  lemma {:induction false} ClockCriterionOf(op: Comparison, w: string, h: string, m: string, rest: string, n: HourWidth, report: bool)
    requires AllSpace(w) && IsDigits(h) && 1 <= |h| <= n && IsDigits(m) && |m| == 2
    ensures ClockCriterion(ClockQualifier(op, w, h, m, rest), n, report)
            == Some(if report then ReportBound(op, DigitsValue(h) * 60 + DigitsValue(m))
                    else CreditBound(op, DigitsValue(h) * 60 + DigitsValue(m)))
  {
    ClockQualifierMatched(op, w, h, m, rest, n);
    ParseClockText(h, m);
    ClockCriterionFrom(ClockQualifier(op, w, h, m, rest), n, report, 0, op, h + ":" + m,
                       DigitsValue(h) * 60 + DigitsValue(m));
  }

  /** CREDIT_TIME with a well-formed qualifier: the trips whose credit reads as
      a clock time in the stated relation to the bound. */
  lemma {:induction false} CreditTimeSelects(cmd: TripPropertyCommand, trips: seq<Trip>, op: Comparison,
                          w: string, h: string, m: string, rest: string)
    requires AllSpace(w) && IsDigits(h) && 1 <= |h| <= 3 && IsDigits(m) && |m| == 2
    requires cmd.property == CreditTime && cmd.qualifier == Some(ClockQualifier(op, w, h, m, rest))
    ensures forall t :: t in TripsAffectedByCommand(cmd, trips) <==>
              t in trips && CreditIs(t, op, DigitsValue(h) * 60 + DigitsValue(m))
  {
    ClockCriterionOf(op, w, h, m, rest, 3, false);
    ClockCommandCriterion(cmd, 3, false, CreditBound(op, DigitsValue(h) * 60 + DigitsValue(m)));
    CreditBoundSelects(cmd, trips, op, DigitsValue(h) * 60 + DigitsValue(m));
  }

  /** Once its qualifier reads as a clock criterion, a CREDIT_TIME or
      TRIP_REPORT_TIME command is parsed as that criterion. */
  lemma {:induction false} ClockCommandCriterion(cmd: TripPropertyCommand, n: HourWidth, report: bool, c: Criterion)
    requires cmd.property == (if report then TripReportTime else CreditTime) && n == (if report then 2 else 3)
    requires cmd.qualifier.Some? && ClockCriterion(cmd.qualifier.value, n, report) == Some(c)
    ensures ParseCriterion(cmd) == Some(c)
  {
  }

  lemma {:induction false} CreditBoundSelects(cmd: TripPropertyCommand, trips: seq<Trip>, op: Comparison, v: nat)
    requires ParseCriterion(cmd) == Some(CreditBound(op, v))
    ensures forall t :: t in TripsAffectedByCommand(cmd, trips) <==> t in trips && CreditIs(t, op, v)
  {
    SelectedBy(cmd, trips, CreditBound(op, v));
    forall t ensures Satisfies(CreditBound(op, v), t) <==> CreditIs(t, op, v) {
      CreditBoundMeans(t, op, v);
    }
  }

  lemma {:induction false} CreditBoundMeans(t: Trip, op: Comparison, v: nat)
    ensures Satisfies(CreditBound(op, v), t) <==> CreditIs(t, op, v)
  {
  }

  lemma {:induction false} ReportBoundSelects(cmd: TripPropertyCommand, trips: seq<Trip>, op: Comparison, v: nat)
    requires ParseCriterion(cmd) == Some(ReportBound(op, v))
    ensures forall t :: t in TripsAffectedByCommand(cmd, trips) <==> t in trips && ReportTimeIs(t, op, v)
  {
    SelectedBy(cmd, trips, ReportBound(op, v));
    forall t ensures Satisfies(ReportBound(op, v), t) <==> ReportTimeIs(t, op, v) {
      ReportBoundMeans(t, op, v);
    }
  }

  lemma {:induction false} ReportBoundMeans(t: Trip, op: Comparison, v: nat)
    ensures Satisfies(ReportBound(op, v), t) <==> ReportTimeIs(t, op, v)
  {
    if t.reportTimeLocal.Some? && ParseHoursMinutes(t.reportTimeLocal.value).Some? {
      assert t.reportTimeLocal.value != "";
    }
  }

  /** TRIP_REPORT_TIME with a well-formed qualifier (one- or two-digit hour):
      the trips whose local report time reads as a clock time in the stated
      relation to the bound. */
  lemma {:induction false} ReportTimeSelects(cmd: TripPropertyCommand, trips: seq<Trip>, op: Comparison,
                          w: string, h: string, m: string, rest: string)
    requires AllSpace(w) && IsDigits(h) && 1 <= |h| <= 2 && IsDigits(m) && |m| == 2
    requires cmd.property == TripReportTime && cmd.qualifier == Some(ClockQualifier(op, w, h, m, rest))
    ensures forall t :: t in TripsAffectedByCommand(cmd, trips) <==>
              t in trips && ReportTimeIs(t, op, DigitsValue(h) * 60 + DigitsValue(m))
  {
    ClockCriterionOf(op, w, h, m, rest, 2, true);
    ClockCommandCriterion(cmd, 2, true, ReportBound(op, DigitsValue(h) * 60 + DigitsValue(m)));
    ReportBoundSelects(cmd, trips, op, DigitsValue(h) * 60 + DigitsValue(m));
  }

  /** The same, stated through the clock reading of the time text itself: a
      TRIP_REPORT_TIME qualifier that is an operator, one space and any clock
      text with at most two hour digits selects the trips whose report time
      is in the stated relation to what that text reads as. */
  lemma {:induction false} ReportClockSelects(cmd: TripPropertyCommand, trips: seq<Trip>, op: Comparison, time: string, bound: nat)
    requires cmd.property == TripReportTime && cmd.qualifier == Some(ComparisonText(op) + " " + time)
    requires ParseHoursMinutes(time) == Some(bound) && |time| <= 5
    ensures forall t :: t in TripsAffectedByCommand(cmd, trips) <==> t in trips && ReportTimeIs(t, op, bound)
  {
    var k := |time| - 3;
    var h := time[..k];
    var m := time[k + 1..];
    assert time == h + ":" + m;
    ParseClockText(h, m);
    assert ComparisonText(op) + " " + time == ClockQualifier(op, " ", h, m, "");
    ReportTimeSelects(cmd, trips, op, " ", h, m, "");
  }

  /** A trip whose credit is not a clock time is never selected by a
      CREDIT_TIME command. */
  lemma {:induction false} UnreadableCreditNeverSelected(cmd: TripPropertyCommand, trips: seq<Trip>, t: Trip)
    requires cmd.property == CreditTime && ParseHoursMinutes(t.tripCredit).None?
    ensures t !in TripsAffectedByCommand(cmd, trips)
  {
    match ParseCriterion(cmd)
    case None =>
    case Some(c) =>
      CreditBoundMeans(t, c.op, c.minutes);
      SelectedOne(cmd, trips, c, t);
  }

  /** A trip with no, or an unreadable, report time is never selected by a
      TRIP_REPORT_TIME command. */
  lemma {:induction false} MissingReportTimeNeverSelected(cmd: TripPropertyCommand, trips: seq<Trip>, t: Trip)
    requires cmd.property == TripReportTime
    requires t.reportTimeLocal.None? || ParseHoursMinutes(t.reportTimeLocal.value).None?
    ensures t !in TripsAffectedByCommand(cmd, trips)
  {
    match ParseCriterion(cmd)
    case None =>
    case Some(c) =>
      ReportBoundMeans(t, c.op, c.minutes);
      SelectedOne(cmd, trips, c, t);
  }

  /** SelectedBy for one trip. */
  lemma {:induction false} SelectedOne(cmd: TripPropertyCommand, trips: seq<Trip>, c: Criterion, t: Trip)
    requires ParseCriterion(cmd) == Some(c)
    ensures t in TripsAffectedByCommand(cmd, trips) <==> t in trips && Satisfies(c, t)
  {
    SelectedBy(cmd, trips, c);
  }

  /** A trip with no layover estimate is never selected by a
      LAYOVER_WITH_LENGTH command. */
  lemma {:induction false} MissingLayoverNeverSelected(cmd: TripPropertyCommand, trips: seq<Trip>, t: Trip)
    requires cmd.property == LayoverWithLength && t.layoverHoursEstimate.None?
    ensures t !in TripsAffectedByCommand(cmd, trips)
  {
    match ParseCriterion(cmd)
    case None =>
    case Some(c) =>
      assert !Satisfies(c, t);
      SelectedOne(cmd, trips, c, t);
  }

  /** LAYOVER_WITH_LENGTH `"{op}{w}{h}:{m}"` and `"{op}{w}{h}"` with one to
      three hour digits: the trips whose estimate, in minutes, is in the stated
      relation to h * 60 + (m, or 0). */
  lemma {:induction false} LayoverSelects(cmd: TripPropertyCommand, trips: seq<Trip>, op: Comparison,
                       w: string, h: string, minutes: Option<string>)
    requires AllSpace(w) && IsDigits(h) && 1 <= |h| <= 3
    requires minutes.Some? ==> IsDigits(minutes.value) && |minutes.value| == 2
    requires cmd.property == LayoverWithLength && cmd.qualifier == Some(LayoverQualifier(op, w, h, minutes))
    ensures forall t :: t in TripsAffectedByCommand(cmd, trips) <==>
              t in trips && t.layoverHoursEstimate.Some?
              && Holds(op, t.layoverHoursEstimate.value * 60, LayoverQualifierMinutes(h, minutes))
  {
    LayoverCriterionOf(op, w, h, minutes);
    LayoverBoundSelects(cmd, trips, op, LayoverQualifierMinutes(h, minutes));
  }

  lemma {:induction false} LayoverBoundSelects(cmd: TripPropertyCommand, trips: seq<Trip>, op: Comparison, v: nat)
    requires cmd.property == LayoverWithLength && cmd.qualifier.Some?
    requires LayoverCriterion(cmd.qualifier.value) == Some(LayoverBound(op, v))
    ensures forall t :: t in TripsAffectedByCommand(cmd, trips) <==>
              t in trips && t.layoverHoursEstimate.Some? && Holds(op, t.layoverHoursEstimate.value * 60, v)
  {
    SelectedBy(cmd, trips, LayoverBound(op, v));
  }

  /** The layover criterion of a qualifier in the canonical shape. */
  lemma {:induction false} LayoverCriterionOf(op: Comparison, w: string, h: string, minutes: Option<string>)
    requires AllSpace(w) && IsDigits(h) && 1 <= |h| <= 3
    requires minutes.Some? ==> IsDigits(minutes.value) && |minutes.value| == 2
    ensures LayoverCriterion(LayoverQualifier(op, w, h, minutes)) == Some(LayoverBound(op, LayoverQualifierMinutes(h, minutes)))
  {
    LayoverQualifierMatched(op, w, h, minutes);
  }

  /** A canonical layover qualifier is matched right at the start, capturing
      the hours and the minutes as written. */
  lemma {:induction false} LayoverQualifierMatched(op: Comparison, w: string, h: string, minutes: Option<string>)
    requires AllSpace(w) && IsDigits(h) && 1 <= |h| <= 3
    requires minutes.Some? ==> IsDigits(minutes.value) && |minutes.value| == 2
    ensures MatchAt(LayoverQualifier(op, w, h, minutes), 0, LayoverPattern) == Some(Capture(op, h, minutes))
  {
    var q := LayoverQualifier(op, w, h, minutes);
    var p := |ComparisonText(op)| + |w|;
    LayoverQualifierParts(op, w, h, minutes);
    OperatorThenSpaces(q, op, w);
    LayoverHoursThenMinutes(q, p, h, minutes);
    LayoverMatchFrom(q, op, p, h, minutes);
  }

  /** Where the parts of a canonical layover qualifier sit. */
  lemma {:induction false} LayoverQualifierParts(op: Comparison, w: string, h: string, minutes: Option<string>)
    requires |h| > 0
    ensures var q := LayoverQualifier(op, w, h, minutes);
            var p := |ComparisonText(op)| + |w|;
            && IsPrefix(ComparisonText(op), q) && p < |q| && q[|ComparisonText(op)|..p] == w
            && q[p..] == h + (match minutes case Some(m) => ":" + m case None => "") && q[p] == h[0]
  {
    var ht := h + match minutes case Some(m) => ":" + m case None => "";
    var q := LayoverQualifier(op, w, h, minutes);
    ConcatParts(ComparisonText(op), w, ht, []);
    assert ComparisonText(op) + w + ht + [] == q;
  }

  /** The layover pattern matches at the start once its parts are found. */
  lemma {:induction false} LayoverMatchFrom(q: string, op: Comparison, p: nat, h: string, minutes: Option<string>)
    requires OperatorAt(q, 0) == Some((op, |ComparisonText(op)|))
    requires SkipSpaces(q, |ComparisonText(op)|) == p && |h| > 0
    requires GreedyDigitsAt(q, p, 3) == |h| && q[p..p + |h|] == h && OptionalMinutesAt(q, p + |h|) == minutes
    ensures MatchAt(q, 0, LayoverPattern) == Some(Capture(op, h, minutes))
  {
  }

  /** At index `p`: the hours `h`, then either the end or a colon with the
      two minute digits. */
  lemma {:induction false} LayoverHoursThenMinutes(q: string, p: nat, h: string, minutes: Option<string>)
    requires IsDigits(h) && 1 <= |h| <= 3
    requires minutes.Some? ==> IsDigits(minutes.value) && |minutes.value| == 2
    requires p <= |q| && q[p..] == h + match minutes case Some(m) => ":" + m case None => ""
    ensures GreedyDigitsAt(q, p, 3) == |h|
    ensures q[p..p + |h|] == h
    ensures OptionalMinutesAt(q, p + |h|) == minutes
  {
    var ht := q[p..];
    assert q[p..p + |h|] == ht[..|h|] == h;
    if minutes.Some? { assert q[p + |h|] == ht[|h|] == ':'; }
    GreedyDigitsOf(q, p, 3, |h|);
    if minutes.Some? {
      assert q[p + |h| + 1..p + |h| + 3] == ht[|h| + 1..] == minutes.value;
    }
  }

  // ---------------------------------------------------------------------------
  // Edge cases of the patterns
  // ---------------------------------------------------------------------------

  /** Minutes are not range-checked: `"07:75"` is 7 * 60 + 75 minutes. A
      single minute digit is not a clock time. */
  lemma {:induction false} ClockEdgeCases()
    ensures ParseHoursMinutes("07:75") == Some(495)
    ensures ParseHoursMinutes("21:50") == Some(1310)
    ensures ParseHoursMinutes("7:5") == None
    ensures ParseHoursMinutes("1234:00") == None
  {
    ParseClockText("07", "75");
    ParseClockText("21", "50");
    assert "07:75" == "07" + ":" + "75";
    assert "21:50" == "21" + ":" + "50";
    assert DigitsValue("07") == 7 by { TwoDigitsBelowHundred("07"); }
    assert DigitsValue("75") == 75 by { TwoDigitsBelowHundred("75"); }
    assert DigitsValue("21") == 21 by { TwoDigitsBelowHundred("21"); }
    assert DigitsValue("50") == 50 by { TwoDigitsBelowHundred("50"); }
  }

  /** The layover hours take at most three digits and the rest of the number
      is ignored: `"> 1234"` bounds the layover at 123 hours. */
  lemma {:induction false} LayoverFourDigitHours()
    ensures LayoverCriterion("> 1234") == Some(LayoverBound(Greater, 123 * 60))
  {
    LayoverMatchAtZero();
    assert DigitsValue("123") == 123 by {
      assert "123"[..2] == "12" && "12"[..1] == "1" && "1"[..0] == "";
    }
    LayoverCriterionFrom("> 1234", Capture(Greater, "123", None));
  }

  lemma {:induction false} LayoverMatchAtZero()
    ensures MatchAt("> 1234", 0, LayoverPattern) == Some(Capture(Greater, "123", None))
  {
    var q := "> 1234";
    assert OperatorAt(q, 0) == Some((Greater, 1));
    assert q[1..] == " 1234";
    LeadingSpaceCountOf(q[1..], 1);
    assert SkipSpaces(q, 1) == 2;
    assert q[2..5] == "123";
    GreedyDigitsOf(q, 2, 3, 3);
    assert OptionalMinutesAt(q, 5) == None;
  }

  /** The layover criterion of a qualifier that matches at its start. */
  lemma {:induction false} LayoverCriterionFrom(q: string, c: Capture)
    requires MatchAt(q, 0, LayoverPattern) == Some(c)
    ensures LayoverCriterion(q) == Some(LayoverBound(c.op, DigitsValue(c.text) * 60
              + match c.minutes case Some(mm) => DigitsValue(mm) case None => 0))
  {
  }

  /** An operator that is not followed by a time does not stop the search:
      in `">= <9:30"` the bound is `< 9:30`. */
  lemma {:induction false} CreditLeftmostOperator()
    ensures ClockCriterion(">= <9:30", 3, false) == Some(CreditBound(Less, 570))
  {
    LeftmostSkipsBareOperator();
    NineThirty();
    ClockCriterionFrom(">= <9:30", 3, false, 3, Less, "9:30", 570);
  }

  lemma {:induction false} NineThirty()
    ensures ParseHoursMinutes("9:30") == Some(570)
  {
    ParseClockText("9", "30");
    assert "9" + ":" + "30" == "9:30";
    assert DigitsValue("30") == 30 by { TwoDigitsBelowHundred("30"); }
    assert DigitsValue("9") == 9 by { assert "9"[..0] == ""; }
  }

  /** The clock criterion of a qualifier whose first match reads as `v`. */
  lemma {:induction false} ClockCriterionFrom(q: string, n: HourWidth, report: bool, i: nat, op: Comparison, t: string, v: nat)
    requires LeftmostMatch(q, ClockPattern(n), 0) == Some((i, Capture(op, t, None))) && ParseHoursMinutes(t) == Some(v)
    ensures ClockCriterion(q, n, report) == Some(if report then ReportBound(op, v) else CreditBound(op, v))
  {
  }

  lemma {:induction false} LeftmostSkipsBareOperator()
    ensures LeftmostMatch(">= <9:30", ClockPattern(3), 0) == Some((3, Capture(Less, "9:30", None)))
  {
    var q := ">= <9:30";
    var c := Capture(Less, "9:30", None);
    NoMatchBeforeThree();
    MatchAtThree();
    assert LeftmostMatch(q, ClockPattern(3), 3) == Some((3, c));
    assert LeftmostMatch(q, ClockPattern(3), 2) == Some((3, c));
    assert LeftmostMatch(q, ClockPattern(3), 1) == Some((3, c));
  }

  lemma {:induction false} NoMatchBeforeThree()
    ensures forall i :: 0 <= i < 3 ==> MatchAt(">= <9:30", i, ClockPattern(3)).None?
  {
    NoMatchAtZero();
    NoMatchAtOneOrTwo();
  }

  lemma {:induction false} NoMatchAtZero()
    ensures MatchAt(">= <9:30", 0, ClockPattern(3)).None?
  {
    var q := ">= <9:30";
    assert OperatorAt(q, 0) == Some((AtLeast, 2));
    assert q[2..3] == " " && q[3] == '<';
    SkipSpacesOver(q, 2, " ");
    ClockTextAtNonDigit(q, 3, 3);
  }

  /** No clock text starts at a character that is not a digit. */
  lemma {:induction false} ClockTextAtNonDigit(s: string, p: nat, k: nat)
    requires k <= 3 && p < |s| && !IsDigit(s[p])
    ensures ClockTextAt(s, p, k) == None
    decreases k
  {
    if k > 0 {
      if p + k <= |s| { assert s[p..p + k][0] == s[p]; }
      ClockTextAtNonDigit(s, p, k - 1);
    }
  }

  lemma {:induction false} NoMatchAtOneOrTwo()
    ensures MatchAt(">= <9:30", 1, ClockPattern(3)).None?
    ensures MatchAt(">= <9:30", 2, ClockPattern(3)).None?
  {
    var q := ">= <9:30";
    assert q[1] == '=' && q[2] == ' ';
    assert OperatorAt(q, 1) == None && OperatorAt(q, 2) == None;
  }

  lemma {:induction false} MatchAtThree()
    ensures MatchAt(">= <9:30", 3, ClockPattern(3)) == Some(Capture(Less, "9:30", None))
  {
    var q := ">= <9:30";
    assert OperatorAt(q, 3) == Some((Less, 4));
    NoSpaceAhead(q, 4);
    ClockAtFour();
    ClockMatchAt(q, 3, Less, 4, 3, "9:30");
  }

  lemma {:induction false} ClockAtFour()
    ensures ClockTextAt(">= <9:30", 4, 3) == Some("9:30")
  {
    var q := ">= <9:30";
    assert q[4..8] == "9" + ":" + "30";
    ClockTextAtLongest(q, 4, 3, "9", "30");
    assert "9" + ":" + "30" == "9:30";
  }

  /** The clock pattern matches at `i` once its three parts are found. */
  lemma {:induction false} ClockMatchAt(s: string, i: nat, op: Comparison, p: nat, n: HourWidth, t: string)
    requires OperatorAt(s, i) == Some((op, p)) && SkipSpaces(s, p) == p && ClockTextAt(s, p, n) == Some(t)
    ensures MatchAt(s, i, ClockPattern(n)) == Some(Capture(op, t, None))
  {
  }

  lemma {:induction false} NoSpaceAhead(s: string, p: nat)
    requires p < |s| && !IsSpace(s[p])
    ensures SkipSpaces(s, p) == p
  {
    LeadingSpaceCountOf(s[p..], 0);
  }
}
