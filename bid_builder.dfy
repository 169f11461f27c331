/** The preference compiler of src/lib/bidBuilder.ts: a profile becomes scored
    candidate commands, which are stably sorted by descending score,
    de-duplicated on (kind, property, qualifier, pool) keeping the first, and
    cut to `maxLines`. `BuildSimpleBidGroup` does this step by step, as the
    source does; `SimpleBidGroup` is the specification it is proved against,
    and the lemmas at the end state what the source promises about it. */
module BidBuilder {
  import opened Wrappers
  import opened Text
  import opened Sequences
  import opened RuleTypes
  import opened TripMatching
  import opened BidCommandBuilder

  // ---------------------------------------------------------------------------
  // The profile
  // ---------------------------------------------------------------------------

  datatype ReserveAvoidance = ReserveOk | ReserveAvoid | ReserveHate

  /** A structured destination preference. */
  datatype DestinationRule = DestinationRule(mode: CommandKind, qualifier: string, tripPool: Option<TripPool>)

  /** A structured trip-length preference: `minDays` days, up to `maxDays`
      when given. */
  datatype TripLengthRule = TripLengthRule(mode: CommandKind, minDays: int, maxDays: Option<int>, tripPool: Option<TripPool>)

  /** The profile fields the compiler reads. The optional rule arrays are
      sequences; an absent array behaves as an empty one. */
  datatype PreferenceProfile = PreferenceProfile(
    preferredDestinations: seq<string>,
    avoidDestinations: seq<string>,
    destinationRules: seq<DestinationRule>,
    tripLengthRules: seq<TripLengthRule>,
    preferLongTrips: bool,
    preferLongLayovers: bool,
    reserveAvoidanceLevel: ReserveAvoidance,
    earliestPreferredReportTime: Option<string>,
    latestPreferredReportTime: Option<string>)

  datatype ScoredCommand = ScoredCommand(command: TripPropertyCommand, score: int)

  /** The number of lines when the caller gives none. */
  const DefaultMaxLines := 5

  /** JavaScript truthiness of an optional string. */
  predicate IsSet(s: Option<string>) {
    s.Some? && s.value != ""
  }

  // ---------------------------------------------------------------------------
  // Pure helpers
  // ---------------------------------------------------------------------------

  /** `describeTripLengthRange`: the note text for a trip-length rule. It opens
      with the minimum and names the maximum only for a proper range. */
  function DescribeTripLengthRange(rule: TripLengthRule): (r: string)
    ensures IsPrefix(IntToString(rule.minDays), r)
    ensures rule.maxDays.None? ==> r[|IntToString(rule.minDays)|..] == " days or more"
    ensures rule.maxDays == Some(rule.minDays) ==> r[|IntToString(rule.minDays)|..] == "-day trips"
    ensures rule.maxDays.Some? && rule.maxDays.value != rule.minDays ==>
              r[|IntToString(rule.minDays)|..] == "–" + IntToString(rule.maxDays.value) + "-day trips"
  {
    var lo := IntToString(rule.minDays);
    if rule.maxDays.None? then AppendParts(lo, " days or more"); lo + " days or more"
    else if rule.minDays == rule.maxDays.value then AppendParts(lo, "-day trips"); lo + "-day trips"
    else
      AppendParts(lo, "–" + IntToString(rule.maxDays.value) + "-day trips");
      ConcatAssoc(lo, "–" + IntToString(rule.maxDays.value), "-day trips");
      ConcatAssoc(lo, "–", IntToString(rule.maxDays.value));
      lo + "–" + IntToString(rule.maxDays.value) + "-day trips"
  }

  /** A concatenation starts with its first part and continues with the second. */
  lemma {:induction false} AppendParts(a: string, b: string)
    ensures IsPrefix(a, a + b) && (a + b)[|a|..] == b
  {
  }

  /** `buildTripLengthQualifier`: `">= {min}D"` without a maximum, `"{n}D"`
      for a single length and `"{min}-{max}D"` for a range. */
  function BuildTripLengthQualifier(rule: TripLengthRule): (r: string)
    ensures |r| >= 2 && r[|r| - 1] == 'D' && !IsSpace(r[0])
  {
    var lo := IntToString(rule.minDays);
    if rule.maxDays.None? then ">= " + lo + "D"
    else if rule.minDays == rule.maxDays.value then lo + "D"
    else lo + "-" + IntToString(rule.maxDays.value) + "D"
  }

  /** The compiler and the command builder write the same qualifier: the
      open-ended rule as the builder's AT_LEAST, the single length as its
      EQUAL and the range as its BETWEEN. */
  lemma {:induction false} TripLengthQualifierAgrees(rule: TripLengthRule)
    ensures rule.maxDays.None? ==>
              BuildTripLengthQualifier(rule) == TripLengthQualifier(AtLeastDays, Some(rule.minDays), None, None).value
    ensures rule.maxDays == Some(rule.minDays) ==>
              BuildTripLengthQualifier(rule) == TripLengthQualifier(Equal, Some(rule.minDays), None, None).value
    ensures rule.maxDays.Some? && rule.maxDays.value != rule.minDays ==>
              BuildTripLengthQualifier(rule) == TripLengthQualifier(Between, None, Some(rule.minDays), rule.maxDays).value
  {
  }

  /** `describeDestinationRule`: the qualifier, upper-cased. */
  function DescribeDestinationRule(rule: DestinationRule): (r: string)
    ensures |r| == |rule.qualifier|
    ensures forall i :: 0 <= i < |r| ==> !('a' <= r[i] <= 'z')
    ensures forall i :: 0 <= i < |r| && !('a' <= rule.qualifier[i] <= 'z') ==> r[i] == rule.qualifier[i]
  {
    ToUpper(rule.qualifier)
  }

  // ---------------------------------------------------------------------------
  // The candidates, facet by facet
  // ---------------------------------------------------------------------------

  function Command(kind: CommandKind, property: TripProperty, qualifier: string,
                   pool: Option<TripPool>, note: string): TripPropertyCommand {
    TripPropertyCommand(kind, property, Some(qualifier), None, pool, None, Some(note))
  }

  /** Structured destination rule `index`: AVOID outranks AWARD by 20, and
      each later rule loses 2 points. */
  function DestinationRuleCandidate(rule: DestinationRule, index: int): ScoredCommand {
    var isAward := rule.mode == Award;
    ScoredCommand(
      Command(rule.mode, Destination, ToUpper(rule.qualifier),
              if isAward then Some(rule.tripPool.GetOr(H)) else None,
              (if isAward then "Prefer" else "Avoid") + " " + DescribeDestinationRule(rule) + " trips"),
      (if isAward then 110 else 130) - index * 2)
  }

  /** Preferred destination `index` of the fallback list. */
  function PreferredCandidate(dest: string, index: int): ScoredCommand {
    ScoredCommand(
      Command(Award, Destination, dest, Some(if index == 0 then HPlusPlus else HPlus),
              (if index == 0 then "Primary" else "Secondary") + " destination preference for " + dest),
      100 - index * 10)
  }

  /** An avoided destination of the fallback list. */
  function AvoidCandidate(dest: string): ScoredCommand {
    ScoredCommand(Command(Avoid, Destination, dest, None, "Completely avoid " + dest), 120)
  }

  /** Structured trip-length rule `index`. */
  function TripLengthRuleCandidate(rule: TripLengthRule, index: int): ScoredCommand {
    var isAward := rule.mode == Award;
    ScoredCommand(
      Command(rule.mode, TripLength, BuildTripLengthQualifier(rule),
              if isAward then Some(rule.tripPool.GetOr(H)) else None,
              (if isAward then "Prefer" else "Avoid") + " " + DescribeTripLengthRange(rule)),
      80 - index * 3)
  }

  function DestinationRuleCandidates(rules: seq<DestinationRule>): seq<ScoredCommand> {
    seq(|rules|, i requires 0 <= i < |rules| => DestinationRuleCandidate(rules[i], i))
  }
  function PreferredCandidates(dests: seq<string>): seq<ScoredCommand> {
    seq(|dests|, i requires 0 <= i < |dests| => PreferredCandidate(dests[i], i))
  }

  function AvoidCandidates(dests: seq<string>): seq<ScoredCommand> {
    seq(|dests|, i requires 0 <= i < |dests| => AvoidCandidate(dests[i]))
  }

  function TripLengthRuleCandidates(rules: seq<TripLengthRule>): seq<ScoredCommand> {
    seq(|rules|, i requires 0 <= i < |rules| => TripLengthRuleCandidate(rules[i], i))
  }

  /** Rule i scores 110 - 2i as an AWARD and 130 - 2i as an AVOID, on the
      upper-cased qualifier; an AWARD goes into the rule's pool or H, an
      AVOID into none. */
  lemma {:induction false} DestinationRuleCandidatesShape(rules: seq<DestinationRule>)
    ensures forall i :: 0 <= i < |rules| ==>
              && DestinationRuleCandidates(rules)[i].score == (if rules[i].mode == Award then 110 else 130) - 2 * i
              && DestinationRuleCandidates(rules)[i].command.kind == rules[i].mode && DestinationRuleCandidates(rules)[i].command.property == Destination
              && DestinationRuleCandidates(rules)[i].command.qualifier == Some(ToUpper(rules[i].qualifier))
              && DestinationRuleCandidates(rules)[i].command.tripPool == (if rules[i].mode == Award then Some(rules[i].tripPool.GetOr(H)) else None)
  {
  }

  /** Preferred destination i scores 100 - 10i on the destination as given,
      into H++ for the first and H+ for the others. */
  lemma {:induction false} PreferredCandidatesShape(dests: seq<string>)
    ensures forall i :: 0 <= i < |dests| ==>
              && PreferredCandidates(dests)[i].score == 100 - 10 * i
              && PreferredCandidates(dests)[i].command.kind == Award && PreferredCandidates(dests)[i].command.property == Destination
              && PreferredCandidates(dests)[i].command.qualifier == Some(dests[i])
              && PreferredCandidates(dests)[i].command.tripPool == Some(if i == 0 then HPlusPlus else HPlus)
  {
  }

  /** Every avoided destination is an AVOID at 120, without a pool. */
  lemma {:induction false} AvoidCandidatesShape(dests: seq<string>)
    ensures forall i :: 0 <= i < |dests| ==>
              && AvoidCandidates(dests)[i].score == 120 && AvoidCandidates(dests)[i].command.kind == Avoid && AvoidCandidates(dests)[i].command.property == Destination
              && AvoidCandidates(dests)[i].command.qualifier == Some(dests[i]) && AvoidCandidates(dests)[i].command.tripPool.None?
  {
  }

  /** Rule i scores 80 - 3i, on the rule's qualifier; an AWARD goes into the
      rule's pool or H, an AVOID into none. */
  lemma {:induction false} TripLengthRuleCandidatesShape(rules: seq<TripLengthRule>)
    ensures forall i :: 0 <= i < |rules| ==>
              && TripLengthRuleCandidates(rules)[i].score == 80 - 3 * i
              && TripLengthRuleCandidates(rules)[i].command.kind == rules[i].mode && TripLengthRuleCandidates(rules)[i].command.property == TripLength
              && TripLengthRuleCandidates(rules)[i].command.qualifier == Some(BuildTripLengthQualifier(rules[i]))
              && TripLengthRuleCandidates(rules)[i].command.tripPool == (if rules[i].mode == Award then Some(rules[i].tripPool.GetOr(H)) else None)
  {
  }

  /** Step 1: the structured destination rules when there are any, otherwise
      the preferred list followed by the avoid list. */
  function DestinationCandidates(p: PreferenceProfile): seq<ScoredCommand> {
    if |p.destinationRules| > 0 then DestinationRuleCandidates(p.destinationRules)
    else PreferredCandidates(p.preferredDestinations) + AvoidCandidates(p.avoidDestinations)
  }

  /** The two legacy trip-length commands. */
  function LegacyTripLengthCandidates(): seq<ScoredCommand> {
    [ScoredCommand(Command(Award, TripLength, "4D", Some(H), "Prefer 4-day trips into high pool"), 80),
     ScoredCommand(Command(Award, TripLength, "3D", Some(L), "Fallback: 3-day trips into low pool"), 60)]
  }

  /** Step 2: the trip-length rules, or the legacy pair when there are none
      and long trips are preferred. */
  function TripLengthCandidates(p: PreferenceProfile): seq<ScoredCommand> {
    if |p.tripLengthRules| > 0 then TripLengthRuleCandidates(p.tripLengthRules)
    else if p.preferLongTrips then LegacyTripLengthCandidates()
    else []
  }

  function LayoverCandidate(): ScoredCommand {
    ScoredCommand(Command(Award, LayoverWithLength, ">= 36:00", None,
                          "Prefer trips with long layovers (36h+ estimate)"), 70)
  }

  function ReserveCandidate(): ScoredCommand {
    ScoredCommand(Command(Avoid, CreditTime, "< 12:00", None,
                          "Avoid very low-credit trips to reduce reserve risk (placeholder)"), 90)
  }

  function EarliestReportCandidate(t: string): ScoredCommand {
    ScoredCommand(Command(Avoid, TripReportTime, "< " + t, None,
                          "Avoid report times earlier than " + t + " (lifestyle/fatigue preference)"), 85)
  }

  function LatestReportCandidate(t: string): ScoredCommand {
    ScoredCommand(Command(Avoid, TripReportTime, "> " + t, None,
                          "Avoid report times later than " + t), 75)
  }

  function LayoverFacet(p: PreferenceProfile): seq<ScoredCommand> {
    if p.preferLongLayovers then [LayoverCandidate()] else []
  }

  function ReserveFacet(p: PreferenceProfile): seq<ScoredCommand> {
    if p.reserveAvoidanceLevel == ReserveHate then [ReserveCandidate()] else []
  }

  function EarliestReportFacet(p: PreferenceProfile): seq<ScoredCommand> {
    if IsSet(p.earliestPreferredReportTime) then [EarliestReportCandidate(p.earliestPreferredReportTime.value)] else []
  }

  function LatestReportFacet(p: PreferenceProfile): seq<ScoredCommand> {
    if IsSet(p.latestPreferredReportTime) then [LatestReportCandidate(p.latestPreferredReportTime.value)] else []
  }

  /** Steps 3 to 5: layovers, reserve avoidance, report times. */
  function FacetCandidates(p: PreferenceProfile): seq<ScoredCommand> {
    LayoverFacet(p) + ReserveFacet(p) + EarliestReportFacet(p) + LatestReportFacet(p)
  }

  /** Every candidate, in the order the source generates them. */
  function Candidates(p: PreferenceProfile): seq<ScoredCommand> {
    DestinationCandidates(p) + TripLengthCandidates(p) + FacetCandidates(p)
  }

  lemma {:induction false} CandidatesInOrder(p: PreferenceProfile)
    ensures Candidates(p) == DestinationCandidates(p) + TripLengthCandidates(p) + FacetCandidates(p)
  {
  }

  // ---------------------------------------------------------------------------
  // Sorting: `sort((a, b) => b.score - a.score)`, which is stable
  // ---------------------------------------------------------------------------

  predicate Sorted(s: seq<ScoredCommand>) {
    forall i, j :: 0 <= i < j < |s| ==> s[i].score >= s[j].score
  }

  /** The elements of `s` with score `v`, in order. */
  function WithScore(s: seq<ScoredCommand>, v: int): seq<ScoredCommand>
    decreases |s|
  {
    if s == [] then [] else (if s[0].score == v then [s[0]] else []) + WithScore(s[1..], v)
  }

  /** Inserts `x` into a sorted list behind every element that scores at
      least as much: the step that keeps equal scores in arrival order. */
  function Insert(x: ScoredCommand, s: seq<ScoredCommand>): (r: seq<ScoredCommand>)
    requires Sorted(s)
    ensures Sorted(r) && |r| == |s| + 1
    ensures r[0] == x || (s != [] && r[0] == s[0])
    ensures multiset(r) == multiset(s) + multiset{x}
    decreases |s|
  {
    if s == [] then [x]
    else if s[0].score >= x.score then
      var t := Insert(x, s[1..]);
      SortedCons(s[0], t);
      MultisetCons(x, s, t);
      [s[0]] + t
    else
      SortedCons(x, s);
      [x] + s
  }

  /** An element scoring at least the head of a sorted list extends it. */
  lemma {:induction false} SortedCons(x: ScoredCommand, s: seq<ScoredCommand>)
    requires Sorted(s) && (s != [] ==> x.score >= s[0].score)
    ensures Sorted([x] + s)
  {
    var r := [x] + s;
    forall i, j | 0 <= i < j < |r| ensures r[i].score >= r[j].score {
      assert r[j] == s[j - 1];
      if i > 0 { assert r[i] == s[i - 1]; }
    }
  }

  lemma {:induction false} MultisetCons(x: ScoredCommand, s: seq<ScoredCommand>, t: seq<ScoredCommand>)
    requires s != [] && multiset(t) == multiset(s[1..]) + multiset{x}
    ensures multiset([s[0]] + t) == multiset(s) + multiset{x}
  {
    assert s == [s[0]] + s[1..];
  }

  /** A stable sort by descending score. */
  function SortByScore(s: seq<ScoredCommand>): (r: seq<ScoredCommand>)
    ensures Sorted(r)
    ensures multiset(r) == multiset(s)
    decreases |s|
  {
    if s == [] then []
    else
      var init := s[..|s| - 1];
      var sorted := SortByScore(init);
      assert s == init + [s[|s| - 1]];
      assert multiset(s) == multiset(init) + multiset{s[|s| - 1]};
      Insert(s[|s| - 1], sorted)
  }

  lemma {:induction false} WithScoreAppend(a: seq<ScoredCommand>, b: seq<ScoredCommand>, v: int)
    ensures WithScore(a + b, v) == WithScore(a, v) + WithScore(b, v)
    decreases |a|
  {
    if a == [] {
      assert a + b == b;
    } else {
      var head := if a[0].score == v then [a[0]] else [];
      assert (a + b)[0] == a[0];
      assert (a + b)[1..] == a[1..] + b;
      WithScoreAppend(a[1..], b, v);
      calc {
        WithScore(a + b, v);
        head + WithScore(a[1..] + b, v);
        head + (WithScore(a[1..], v) + WithScore(b, v));
        { ConcatAssoc(head, WithScore(a[1..], v), WithScore(b, v)); }
        (head + WithScore(a[1..], v)) + WithScore(b, v);
      }
    }
  }

  lemma {:induction false} WithScoreBelow(s: seq<ScoredCommand>, v: int)
    requires forall i :: 0 <= i < |s| ==> s[i].score < v
    ensures WithScore(s, v) == []
    decreases |s|
  {
    if s != [] {
      WithScoreBelow(s[1..], v);
    }
  }

  lemma {:induction false} WithScoreInsert(x: ScoredCommand, s: seq<ScoredCommand>, v: int)
    requires Sorted(s)
    ensures WithScore(Insert(x, s), v) == WithScore(s, v) + WithScore([x], v)
    decreases |s|
  {
    if s == [] {
    } else if s[0].score >= x.score {
      WithScoreInsert(x, s[1..], v);
      WithScoreInsertBehind(x, s, v);
    } else {
      WithScoreInsertFront(x, s, v);
    }
  }

  /** The step where `x` goes behind the head of `s`. */
  lemma {:induction false} WithScoreInsertBehind(x: ScoredCommand, s: seq<ScoredCommand>, v: int)
    requires Sorted(s) && s != [] && s[0].score >= x.score
    requires WithScore(Insert(x, s[1..]), v) == WithScore(s[1..], v) + WithScore([x], v)
    ensures WithScore(Insert(x, s), v) == WithScore(s, v) + WithScore([x], v)
  {
    InsertBehind(x, s);
    WithScoreCons(s[0], Insert(x, s[1..]), v);
    WithScoreOfHead(s, v);
    ConcatAssoc(Keep(s[0], v), WithScore(s[1..], v), WithScore([x], v));
  }

  lemma {:induction false} InsertBehind(x: ScoredCommand, s: seq<ScoredCommand>)
    requires Sorted(s) && s != [] && s[0].score >= x.score
    ensures Insert(x, s) == [s[0]] + Insert(x, s[1..])
  {
  }

  lemma {:induction false} WithScoreOfHead(s: seq<ScoredCommand>, v: int)
    requires s != []
    ensures WithScore(s, v) == Keep(s[0], v) + WithScore(s[1..], v)
  {
  }

  /** The contribution of one element to WithScore. */
  function Keep(c: ScoredCommand, v: int): seq<ScoredCommand> {
    if c.score == v then [c] else []
  }

  lemma {:induction false} WithScoreCons(c: ScoredCommand, t: seq<ScoredCommand>, v: int)
    ensures WithScore([c] + t, v) == Keep(c, v) + WithScore(t, v)
  {
    assert ([c] + t)[1..] == t;
  }

  /** The step where `x` goes in front of all of `s`. */
  lemma {:induction false} WithScoreInsertFront(x: ScoredCommand, s: seq<ScoredCommand>, v: int)
    requires Sorted(s) && s != [] && s[0].score < x.score
    ensures WithScore(Insert(x, s), v) == WithScore(s, v) + WithScore([x], v)
  {
    assert Insert(x, s) == [x] + s;
    WithScoreCons(x, s, v);
    WithScoreSingle(x, v);
    if x.score == v {
      WithScoreBelow(s, v);
      assert Keep(x, v) + [] == [] + Keep(x, v);
    } else {
      assert [] + WithScore(s, v) == WithScore(s, v) + [];
    }
  }

  lemma {:induction false} WithScoreSingle(x: ScoredCommand, v: int)
    ensures WithScore([x], v) == Keep(x, v)
  {
    assert [x][1..] == [];
  }

  /** The sort is stable: for every score, the elements with that score keep
      their relative order. */
  lemma {:induction false} SortByScoreStable(s: seq<ScoredCommand>, v: int)
    ensures WithScore(SortByScore(s), v) == WithScore(s, v)
    decreases |s|
  {
    if s != [] {
      var init := s[..|s| - 1];
      var last := s[|s| - 1];
      SortByScoreStable(init, v);
      WithScoreInsert(last, SortByScore(init), v);
      assert s == init + [last];
      WithScoreAppend(init, [last], v);
    }
  }

  // ---------------------------------------------------------------------------
  // De-duplication on the key, keeping the first
  // ---------------------------------------------------------------------------

  /** The de-duplication key; the JSON text of the source is injective in
      these four fields, with a missing pool written as `null`. */
  datatype DedupKey = DedupKey(kind: CommandKind, property: TripProperty,
                               qualifier: Option<string>, tripPool: Option<TripPool>)

  function CommandKey(c: TripPropertyCommand): DedupKey {
    DedupKey(c.kind, c.property, c.qualifier, c.tripPool)
  }

  function Key(c: ScoredCommand): DedupKey {
    CommandKey(c.command)
  }

  function KeysOf(s: seq<ScoredCommand>): set<DedupKey> {
    set c | c in s :: Key(c)
  }

  predicate DistinctKeys(s: seq<ScoredCommand>) {
    forall i, j :: 0 <= i < j < |s| ==> Key(s[i]) != Key(s[j])
  }

  /** The candidates in order, each dropped when an earlier one has its key:
      what the source reads back from its insertion-ordered map. */
  function Dedup(s: seq<ScoredCommand>): (r: seq<ScoredCommand>)
    ensures DistinctKeys(r)
    ensures KeysOf(r) == KeysOf(s)
    ensures forall x :: x in r ==> x in s
    decreases |s|
  {
    if s == [] then []
    else
      var init := s[..|s| - 1];
      var last := s[|s| - 1];
      var d := Dedup(init);
      assert s == init + [last];
      assert KeysOf(s) == KeysOf(init) + {Key(last)};
      if Key(last) in KeysOf(d) then d
      else
        assert KeysOf(d + [last]) == KeysOf(d) + {Key(last)};
        d + [last]
  }

  /** De-duplicating a sorted list leaves it sorted. */
  lemma {:induction false} DedupSorted(s: seq<ScoredCommand>)
    requires Sorted(s)
    ensures Sorted(Dedup(s))
    decreases |s|
  {
    if s != [] {
      var init := s[..|s| - 1];
      var last := s[|s| - 1];
      var d := Dedup(init);
      assert Sorted(init);
      DedupSorted(init);
      forall x | x in d ensures x.score >= last.score {
        LastScoresLeast(s, x);
      }
    }
  }

  /** What de-duplication keeps is a subsequence of its input. */
  lemma {:induction false} DedupSubsequence(s: seq<ScoredCommand>)
    ensures IsSubsequence(Dedup(s), s)
    decreases |s|
  {
    if s != [] {
      var init := s[..|s| - 1];
      var last := s[|s| - 1];
      DedupSubsequence(init);
      assert s == init + [last];
      if Key(last) in KeysOf(Dedup(init)) {
        SubsequenceExtend(Dedup(init), init, last);
      } else {
        SubsequenceSnoc(Dedup(init), init, last);
      }
    }
  }

  /** The first candidate with a given key is the one kept. */
  lemma {:induction false} DedupKeepsFirst(s: seq<ScoredCommand>, j: int)
    requires 0 <= j < |s|
    requires forall k :: 0 <= k < j ==> Key(s[k]) != Key(s[j])
    ensures s[j] in Dedup(s)
    decreases |s|
  {
    var init := s[..|s| - 1];
    var last := s[|s| - 1];
    if j == |s| - 1 {
      forall x | x in init ensures Key(x) != Key(last) {
        var k :| 0 <= k < |init| && init[k] == x;
        assert s[k] == x;
      }
      assert Key(last) !in KeysOf(init);
    } else {
      DedupKeepsFirst(init, j);
    }
  }

  /** The first element always survives. */
  lemma {:induction false} DedupHead(s: seq<ScoredCommand>)
    requires s != []
    ensures Dedup(s) != [] && Dedup(s)[0] == s[0]
    decreases |s|
  {
    if |s| > 1 {
      var init := s[..|s| - 1];
      DedupHead(init);
    }
  }

  /** Applied to a sorted list, de-duplication keeps for each key an element
      that scores at least as much as every candidate with that key. */
  lemma {:induction false} DedupKeepsBest(s: seq<ScoredCommand>)
    requires Sorted(s)
    ensures forall x, y :: x in Dedup(s) && y in s && Key(x) == Key(y) ==> x.score >= y.score
    decreases |s|
  {
    if s != [] {
      var init := s[..|s| - 1];
      var last := s[|s| - 1];
      var d := Dedup(init);
      assert s == init + [last];
      assert Sorted(init);
      DedupKeepsBest(init);
      assert Dedup(s) == if Key(last) in KeysOf(d) then d else d + [last];
      forall x, y | x in Dedup(s) && y in s && Key(x) == Key(y) ensures x.score >= y.score {
        if x in d {
          LastScoresLeast(s, x);
        } else {
          assert x == last;
          assert Key(y) !in KeysOf(init);
          assert y == last;
        }
      }
    }
  }

  lemma {:induction false} LastScoresLeast(s: seq<ScoredCommand>, x: ScoredCommand)
    requires Sorted(s) && s != [] && x in s
    ensures x.score >= s[|s| - 1].score
  {
    var i :| 0 <= i < |s| && s[i] == x;
  }

  // ---------------------------------------------------------------------------
  // slice(0, maxLines)
  // ---------------------------------------------------------------------------

  /** The end index `slice(0, n)` uses: a negative `n` counts from the end. */
  function SliceEnd(len: nat, n: int): (e: nat)
    ensures e <= len
    ensures n >= 0 ==> e == if n < len then n else len
    ensures n < 0 ==> e == if len + n > 0 then len + n else 0
  {
    if n >= 0 then (if n < len then n else len)
    else if len + n > 0 then len + n else 0
  }

  function Commands(s: seq<ScoredCommand>): (r: seq<TripPropertyCommand>)
    ensures |r| == |s| && forall i :: 0 <= i < |s| ==> r[i] == s[i].command
  {
    seq(|s|, i requires 0 <= i < |s| => s[i].command)
  }

  /** Sorting, de-duplication and the slice, applied to any candidate list. */
  function Compile(candidates: seq<ScoredCommand>, maxLines: int): seq<ScoredCommand> {
    var unique := Dedup(SortByScore(candidates));
    unique[..SliceEnd(|unique|, maxLines)]
  }

  /** The scored lines the compiler returns. */
  function SimpleBidGroupScored(p: PreferenceProfile, maxLines: int): seq<ScoredCommand> {
    Compile(Candidates(p), maxLines)
  }

  /** The commands the compiler returns. */
  function SimpleBidGroup(p: PreferenceProfile, maxLines: int): seq<TripPropertyCommand> {
    Commands(SimpleBidGroupScored(p, maxLines))
  }

  // ---------------------------------------------------------------------------
  // buildSimpleBidGroup
  // ---------------------------------------------------------------------------

  /** `buildSimpleBidGroup(profile, maxLines)`: pushes the candidates facet by
      facet, sorts them, keeps the first per key through a set of keys seen
      so far, and slices. */
  method BuildSimpleBidGroup(profile: PreferenceProfile, maxLines: int) returns (r: seq<TripPropertyCommand>)
    ensures r == SimpleBidGroup(profile, maxLines)
  {
    var candidates := PushDestinationCandidates(profile, []);
    assert candidates == DestinationCandidates(profile);
    candidates := PushTripLengthCandidates(profile, candidates);
    candidates := PushFacetCandidates(profile, candidates);
    CandidatesInOrder(profile);
    r := RankAndTrim(candidates, maxLines);
  }

  /** The tail of `buildSimpleBidGroup`: sort, the `uniqueMap` loop, the slice
      and the projection onto the commands. */
  method RankAndTrim(candidates: seq<ScoredCommand>, maxLines: int) returns (r: seq<TripPropertyCommand>)
    ensures r == Commands(Compile(candidates, maxLines))
  {
    var sorted := SortByScore(candidates);
    var unique := KeepFirstPerKey(sorted);
    var kept := unique[..SliceEnd(|unique|, maxLines)];
    r := [];
    var k := 0;
    while k < |kept|
      invariant 0 <= k <= |kept|
      invariant r == Commands(kept[..k])
    {
      CommandsStep(kept, k);
      r := r + [kept[k].command];
      k := k + 1;
    }
    assert kept[..k] == kept;
  }

  lemma {:induction false} CommandsStep(s: seq<ScoredCommand>, k: nat)
    requires k < |s|
    ensures Commands(s[..k + 1]) == Commands(s[..k]) + [s[k].command]
  {
    assert Commands(s[..k + 1])[..k] == Commands(s[..k]);
  }

  /** Step 1 of `buildSimpleBidGroup`: the destination pushes. */
  method PushDestinationCandidates(profile: PreferenceProfile, candidates: seq<ScoredCommand>)
    returns (r: seq<ScoredCommand>)
    ensures r == candidates + DestinationCandidates(profile)
  {
    r := candidates;
    if |profile.destinationRules| > 0 {
      var rules := profile.destinationRules;
      var index := 0;
      while index < |rules|
        invariant 0 <= index <= |rules|
        invariant r == candidates + DestinationRuleCandidates(rules)[..index]
      {
        assert DestinationRuleCandidates(rules)[index] == DestinationRuleCandidate(rules[index], index);
        r := r + [DestinationRuleCandidate(rules[index], index)];
        index := index + 1;
        assert DestinationRuleCandidates(rules)[..index]
               == DestinationRuleCandidates(rules)[..index - 1] + [DestinationRuleCandidates(rules)[index - 1]];
      }
      assert DestinationRuleCandidates(rules)[..index] == DestinationRuleCandidates(rules);
    } else {
      var dests := profile.preferredDestinations;
      var index := 0;
      while index < |dests|
        invariant 0 <= index <= |dests|
        invariant r == candidates + PreferredCandidates(dests)[..index]
      {
        assert PreferredCandidates(dests)[index] == PreferredCandidate(dests[index], index);
        r := r + [PreferredCandidate(dests[index], index)];
        index := index + 1;
        assert PreferredCandidates(dests)[..index]
               == PreferredCandidates(dests)[..index - 1] + [PreferredCandidates(dests)[index - 1]];
      }
      assert PreferredCandidates(dests)[..index] == PreferredCandidates(dests);
      var avoid := profile.avoidDestinations;
      var j := 0;
      while j < |avoid|
        invariant 0 <= j <= |avoid|
        invariant r == candidates + PreferredCandidates(dests) + AvoidCandidates(avoid)[..j]
      {
        assert AvoidCandidates(avoid)[j] == AvoidCandidate(avoid[j]);
        r := r + [AvoidCandidate(avoid[j])];
        j := j + 1;
        assert AvoidCandidates(avoid)[..j] == AvoidCandidates(avoid)[..j - 1] + [AvoidCandidates(avoid)[j - 1]];
      }
      assert AvoidCandidates(avoid)[..j] == AvoidCandidates(avoid);
    }
  }

  /** Step 2: the trip-length pushes. */
  method PushTripLengthCandidates(profile: PreferenceProfile, candidates: seq<ScoredCommand>)
    returns (r: seq<ScoredCommand>)
    ensures r == candidates + TripLengthCandidates(profile)
  {
    r := candidates;
    if |profile.tripLengthRules| > 0 {
      r := PushTripLengthRules(profile.tripLengthRules, candidates);
    } else if profile.preferLongTrips {
      var legacy := LegacyTripLengthCandidates();
      r := r + [legacy[0]];
      r := r + [legacy[1]];
      PushTwo(candidates, legacy);
    }
  }

  /** The `forEach` over the trip-length rules. */
  method PushTripLengthRules(rules: seq<TripLengthRule>, candidates: seq<ScoredCommand>)
    returns (r: seq<ScoredCommand>)
    ensures r == candidates + TripLengthRuleCandidates(rules)
  {
    r := candidates;
    var idx := 0;
    while idx < |rules|
      invariant 0 <= idx <= |rules|
      invariant r == candidates + TripLengthRuleCandidates(rules)[..idx]
    {
      TripLengthRuleCandidatesStep(candidates, rules, idx, r);
      r := r + [TripLengthRuleCandidate(rules[idx], idx)];
      idx := idx + 1;
    }
    TripLengthRuleCandidatesDone(rules, idx);
  }

  /** Pushing both elements of a pair, one after the other. */
  lemma {:induction false} PushTwo<T>(c: seq<T>, l: seq<T>)
    requires |l| == 2
    ensures c + [l[0]] + [l[1]] == c + l
  {
    assert l == [l[0]] + [l[1]];
  }

  /** One more trip-length rule extends the candidates by one. */
  lemma {:induction false} TripLengthRuleCandidatesStep(candidates: seq<ScoredCommand>, rules: seq<TripLengthRule>,
                                                        idx: nat, r: seq<ScoredCommand>)
    requires idx < |rules| && r == candidates + TripLengthRuleCandidates(rules)[..idx]
    ensures r + [TripLengthRuleCandidate(rules[idx], idx)] == candidates + TripLengthRuleCandidates(rules)[..idx + 1]
  {
    PrefixSnoc(TripLengthRuleCandidates(rules), idx);
  }

  lemma {:induction false} TripLengthRuleCandidatesDone(rules: seq<TripLengthRule>, idx: nat)
    requires idx == |rules|
    ensures TripLengthRuleCandidates(rules)[..idx] == TripLengthRuleCandidates(rules)
  {
  }

  /** Steps 3 to 5: the layover, reserve and report-time pushes. */
  method PushFacetCandidates(profile: PreferenceProfile, candidates: seq<ScoredCommand>)
    returns (r: seq<ScoredCommand>)
    ensures r == candidates + FacetCandidates(profile)
  {
    var layover, reserve := LayoverFacet(profile), ReserveFacet(profile);
    var earliest, latest := EarliestReportFacet(profile), LatestReportFacet(profile);
    r := candidates;
    if profile.preferLongLayovers {
      r := r + [LayoverCandidate()];
    }
    assert r == candidates + layover;
    if profile.reserveAvoidanceLevel == ReserveHate {
      r := r + [ReserveCandidate()];
    }
    assert r == (candidates + layover) + reserve;
    if IsSet(profile.earliestPreferredReportTime) {
      r := r + [EarliestReportCandidate(profile.earliestPreferredReportTime.value)];
    }
    assert r == ((candidates + layover) + reserve) + earliest;
    if IsSet(profile.latestPreferredReportTime) {
      r := r + [LatestReportCandidate(profile.latestPreferredReportTime.value)];
    }
    assert r == (((candidates + layover) + reserve) + earliest) + latest;
    ConcatAssoc(candidates, layover, reserve);
    ConcatAssoc(candidates, layover + reserve, earliest);
    ConcatAssoc(candidates, layover + reserve + earliest, latest);
  }

  /** The `uniqueMap` loop: the first candidate per key, in order, tracked by
      the set of keys the map holds. */
  method KeepFirstPerKey(candidates: seq<ScoredCommand>) returns (unique: seq<ScoredCommand>)
    ensures unique == Dedup(candidates)
  {
    var seen: set<DedupKey> := {};
    unique := [];
    var i := 0;
    while i < |candidates|
      invariant 0 <= i <= |candidates|
      invariant unique == Dedup(candidates[..i])
      invariant seen == KeysOf(unique)
    {
      var cand := candidates[i];
      assert candidates[..i + 1][..i] == candidates[..i];
      if Key(cand) !in seen {
        seen := seen + {Key(cand)};
        unique := unique + [cand];
      }
      i := i + 1;
    }
    assert candidates[..i] == candidates;
  }

  // ---------------------------------------------------------------------------
  // What the compiler promises
  // ---------------------------------------------------------------------------

  /** At most `maxLines` lines for a non-negative `maxLines`, the whole
      de-duplicated list when it is no longer, and for a negative one all
      but the last `-maxLines`. */
  lemma {:induction false} CompileLength(c: seq<ScoredCommand>, maxLines: int)
    ensures var u := Dedup(SortByScore(c));
            && (maxLines >= 0 ==> |Compile(c, maxLines)| <= maxLines)
            && (maxLines >= |u| ==> Compile(c, maxLines) == u)
            && (maxLines < 0 ==> |Compile(c, maxLines)| == if |u| + maxLines > 0 then |u| + maxLines else 0)
            && Compile(c, maxLines) == u[..|Compile(c, maxLines)|]
  {
  }

  /** The compiled lines have pairwise distinct keys, come in non-increasing
      score order, are candidates, and each scores at least as much as every
      candidate with its key. */
  lemma {:induction false} CompileSortedDistinct(c: seq<ScoredCommand>, maxLines: int)
    ensures DistinctKeys(Compile(c, maxLines))
    ensures Sorted(Compile(c, maxLines))
    ensures forall x :: x in Compile(c, maxLines) ==> x in c
    ensures forall x, y :: x in Compile(c, maxLines) && y in c && Key(x) == Key(y) ==> x.score >= y.score
  {
    var sorted := SortByScore(c);
    var u := Dedup(sorted);
    var out := Compile(c, maxLines);
    assert forall i :: 0 <= i < |out| ==> out[i] == u[i];
    assert forall x :: x in out ==> x in u;
    assert forall x :: x in sorted ==> x in c by {
      forall x | x in sorted ensures x in c {
        assert x in multiset(sorted);
      }
    }
    DedupKeepsBest(sorted);
    DedupSorted(sorted);
    forall x, y | x in out && y in c && Key(x) == Key(y) ensures x.score >= y.score {
      assert y in multiset(c);
      assert y in sorted;
    }
  }

  /** Among compiled lines of equal score the order is the candidates'
      order. */
  lemma {:induction false} CompileTiesInOrder(c: seq<ScoredCommand>, maxLines: int, v: int)
    ensures IsSubsequence(WithScore(Compile(c, maxLines), v), WithScore(c, v))
  {
    var sorted := SortByScore(c);
    var u := Dedup(sorted);
    var out := Compile(c, maxLines);
    SubsequencePrefix(u, |out|);
    DedupSubsequence(sorted);
    SubsequenceTrans(out, u, sorted);
    WithScoreSubsequence(out, sorted, v);
    SortByScoreStable(c, v);
  }

  /** When no candidate scores above `v`, the first candidate scoring `v`
      leads the compiled lines. */
  lemma {:induction false} CompileLeader(c: seq<ScoredCommand>, maxLines: int, v: int)
    requires forall i :: 0 <= i < |c| ==> c[i].score <= v
    requires WithScore(c, v) != [] && maxLines >= 1
    ensures Compile(c, maxLines) != [] && Compile(c, maxLines)[0] == WithScore(c, v)[0]
  {
    SortByScoreStable(c, v);
    SortedLeaderHasTopScore(c, v);
    DedupHead(SortByScore(c));
  }

  /** Never more than `maxLines` commands; the default is 5. */
  lemma {:induction false} OutputLength(p: PreferenceProfile, maxLines: int)
    ensures maxLines >= 0 ==> |SimpleBidGroup(p, maxLines)| <= maxLines
    ensures |SimpleBidGroup(p, DefaultMaxLines)| <= 5
  {
    CompileLength(Candidates(p), maxLines);
    CompileLength(Candidates(p), DefaultMaxLines);
  }

  /** No two returned commands share kind, property, qualifier and pool. */
  lemma {:induction false} OutputKeysDistinct(p: PreferenceProfile, maxLines: int)
    ensures DistinctKeys(SimpleBidGroupScored(p, maxLines))
  {
    CompileSortedDistinct(Candidates(p), maxLines);
  }

  /** The returned lines come in non-increasing score order, each is one of
      the candidates, and each keeps the note of the best-scoring candidate
      with its key. */
  lemma {:induction false} OutputOrderedByScore(p: PreferenceProfile, maxLines: int)
    ensures Sorted(SimpleBidGroupScored(p, maxLines))
    ensures forall x :: x in SimpleBidGroupScored(p, maxLines) ==> x in Candidates(p)
    ensures forall x, y :: x in SimpleBidGroupScored(p, maxLines) && y in Candidates(p) && Key(x) == Key(y) ==>
              x.score >= y.score
  {
    CompileSortedDistinct(Candidates(p), maxLines);
  }

  /** Among lines of equal score, the returned order is the order of
      generation: the lines with score `v` are a subsequence of the
      candidates with score `v`. */
  lemma {:induction false} OutputTiesKeepGenerationOrder(p: PreferenceProfile, maxLines: int, v: int)
    ensures IsSubsequence(WithScore(SimpleBidGroupScored(p, maxLines), v), WithScore(Candidates(p), v))
  {
    CompileTiesInOrder(Candidates(p), maxLines, v);
  }

  /** The same facts on the commands the builder hands back: no two share
      kind, property, qualifier and pool, and each is the command of one of
      the candidates. */
  lemma {:induction false} OutputCommandsDistinct(p: PreferenceProfile, maxLines: int)
    ensures forall i, j :: 0 <= i < j < |SimpleBidGroup(p, maxLines)| ==>
              CommandKey(SimpleBidGroup(p, maxLines)[i]) != CommandKey(SimpleBidGroup(p, maxLines)[j])
    ensures forall c :: c in SimpleBidGroup(p, maxLines) ==> c in Commands(Candidates(p))
  {
    var s := SimpleBidGroupScored(p, maxLines);
    var g := SimpleBidGroup(p, maxLines);
    OutputKeysDistinct(p, maxLines);
    OutputOrderedByScore(p, maxLines);
    forall i, j | 0 <= i < j < |g| ensures CommandKey(g[i]) != CommandKey(g[j]) {
      assert Key(s[i]) != Key(s[j]);
    }
    forall c | c in g ensures c in Commands(Candidates(p)) {
      var i :| 0 <= i < |g| && g[i] == c;
      assert s[i] in s;
      CommandOfMember(Candidates(p), s[i]);
    }
  }

  lemma {:induction false} CommandOfMember(s: seq<ScoredCommand>, x: ScoredCommand)
    requires x in s
    ensures x.command in Commands(s)
  {
    var k :| 0 <= k < |s| && s[k] == x;
    assert Commands(s)[k] == x.command;
  }



  lemma {:induction false} WithScoreSubsequence(a: seq<ScoredCommand>, b: seq<ScoredCommand>, v: int)
    requires IsSubsequence(a, b)
    ensures IsSubsequence(WithScore(a, v), WithScore(b, v))
    decreases |b|
  {
    if a == [] {
    } else {
      assert b != [];
      if a[0] == b[0] {
        WithScoreSubsequence(a[1..], b[1..], v);
        if a[0].score == v {
          assert WithScore(a, v) == [a[0]] + WithScore(a[1..], v);
          assert WithScore(b, v) == [a[0]] + WithScore(b[1..], v);
          SubsequenceCons(a[0], WithScore(a[1..], v), WithScore(b[1..], v));
        } else {
          assert WithScore(a, v) == WithScore(a[1..], v);
          assert WithScore(b, v) == WithScore(b[1..], v);
        }
      } else {
        WithScoreSubsequence(a, b[1..], v);
        if b[0].score == v {
          assert WithScore(b, v) == [b[0]] + WithScore(b[1..], v);
          SubsequenceSkip(b[0], WithScore(a, v), WithScore(b[1..], v));
        } else {
          assert WithScore(b, v) == WithScore(b[1..], v);
        }
      }
    }
  }

  predicate AllPoolOnlyOnAward(s: seq<ScoredCommand>) {
    forall i :: 0 <= i < |s| ==> PoolOnlyOnAward(s[i].command)
  }

  lemma {:induction false} AllPoolOnlyOnAwardAppend(a: seq<ScoredCommand>, b: seq<ScoredCommand>)
    requires AllPoolOnlyOnAward(a) && AllPoolOnlyOnAward(b)
    ensures AllPoolOnlyOnAward(a + b)
  {
    forall i | 0 <= i < |a + b| ensures PoolOnlyOnAward((a + b)[i].command) {
      if i >= |a| {
        assert (a + b)[i] == b[i - |a|];
      }
    }
  }

  /** Every candidate is an AWARD or carries no pool. */
  lemma {:induction false} CandidatesPoolOnlyOnAward(p: PreferenceProfile)
    ensures forall x :: x in Candidates(p) ==> PoolOnlyOnAward(x.command)
  {
    DestinationPoolOnlyOnAward(p);
    TripLengthPoolOnlyOnAward(p);
    FacetPoolOnlyOnAward(p);
    AllPoolOnlyOnAwardAppend(DestinationCandidates(p), TripLengthCandidates(p));
    AllPoolOnlyOnAwardAppend(DestinationCandidates(p) + TripLengthCandidates(p), FacetCandidates(p));
    AllPoolOnlyOnAwardMembers(Candidates(p));
  }

  lemma {:induction false} AllPoolOnlyOnAwardMembers(s: seq<ScoredCommand>)
    requires AllPoolOnlyOnAward(s)
    ensures forall x :: x in s ==> PoolOnlyOnAward(x.command)
  {
    forall x | x in s ensures PoolOnlyOnAward(x.command) {
      var i :| 0 <= i < |s| && s[i] == x;
    }
  }

  lemma {:induction false} DestinationPoolOnlyOnAward(p: PreferenceProfile)
    ensures AllPoolOnlyOnAward(DestinationCandidates(p))
  {
    if |p.destinationRules| == 0 {
      var pref := PreferredCandidates(p.preferredDestinations);
      var avoid := AvoidCandidates(p.avoidDestinations);
      assert AllPoolOnlyOnAward(pref);
      assert AllPoolOnlyOnAward(avoid);
      AllPoolOnlyOnAwardAppend(pref, avoid);
    } else {
      assert AllPoolOnlyOnAward(DestinationRuleCandidates(p.destinationRules));
    }
  }

  lemma {:induction false} TripLengthPoolOnlyOnAward(p: PreferenceProfile)
    ensures AllPoolOnlyOnAward(TripLengthCandidates(p))
  {
    if |p.tripLengthRules| > 0 {
      assert AllPoolOnlyOnAward(TripLengthRuleCandidates(p.tripLengthRules));
    }
  }

  lemma {:induction false} FacetPoolOnlyOnAward(p: PreferenceProfile)
    ensures AllPoolOnlyOnAward(FacetCandidates(p))
  {
    var layover, reserve := LayoverFacet(p), ReserveFacet(p);
    var earliest, latest := EarliestReportFacet(p), LatestReportFacet(p);
    assert AllPoolOnlyOnAward(layover) && AllPoolOnlyOnAward(reserve);
    assert AllPoolOnlyOnAward(earliest) && AllPoolOnlyOnAward(latest);
    AllPoolOnlyOnAwardAppend(layover, reserve);
    AllPoolOnlyOnAwardAppend(layover + reserve, earliest);
    AllPoolOnlyOnAwardAppend(layover + reserve + earliest, latest);
  }

  /** No returned AVOID command carries a pool. */
  lemma {:induction false} OutputPoolOnlyOnAward(p: PreferenceProfile, maxLines: int)
    ensures forall c :: c in SimpleBidGroup(p, maxLines) ==> PoolOnlyOnAward(c)
  {
    var c := Candidates(p);
    CompileSortedDistinct(c, maxLines);
    CandidatesPoolOnlyOnAward(p);
    var out := Compile(c, maxLines);
    forall x | x in Commands(out) ensures PoolOnlyOnAward(x) {
      var i :| 0 <= i < |out| && Commands(out)[i] == x;
      assert out[i] in out;
    }
  }

  /** With structured destination rules present, the preferred and avoid
      lists make no difference. */
  lemma {:induction false} DestinationRulesSupersedeLists(p: PreferenceProfile, preferred: seq<string>, avoid: seq<string>, maxLines: int)
    requires |p.destinationRules| > 0
    ensures SimpleBidGroup(p, maxLines)
            == SimpleBidGroup(p.(preferredDestinations := preferred, avoidDestinations := avoid), maxLines)
  {
    CandidatesAgree(p, p.(preferredDestinations := preferred, avoidDestinations := avoid));
  }

  /** With the same destination settings (the structured rules, and the
      preferred and avoid lists when there are no rules), trip-length
      settings and facet settings, two profiles produce the same candidates. */
  lemma {:induction false} CandidatesAgree(p: PreferenceProfile, q: PreferenceProfile)
    requires p.destinationRules == q.destinationRules
    requires |p.destinationRules| == 0 ==>
               p.preferredDestinations == q.preferredDestinations && p.avoidDestinations == q.avoidDestinations
    requires p.tripLengthRules == q.tripLengthRules && p.preferLongTrips == q.preferLongTrips
    requires p.preferLongLayovers == q.preferLongLayovers && p.reserveAvoidanceLevel == q.reserveAvoidanceLevel
    requires p.earliestPreferredReportTime == q.earliestPreferredReportTime
    requires p.latestPreferredReportTime == q.latestPreferredReportTime
    ensures Candidates(p) == Candidates(q)
  {
    DestinationCandidatesAgree(p, q);
    TripLengthCandidatesAgree(p, q);
    FacetCandidatesAgree(p, q);
  }

  lemma {:induction false} DestinationCandidatesAgree(p: PreferenceProfile, q: PreferenceProfile)
    requires p.destinationRules == q.destinationRules
    requires |p.destinationRules| == 0 ==>
               p.preferredDestinations == q.preferredDestinations && p.avoidDestinations == q.avoidDestinations
    ensures DestinationCandidates(p) == DestinationCandidates(q)
  {
  }

  lemma {:induction false} TripLengthCandidatesAgree(p: PreferenceProfile, q: PreferenceProfile)
    requires p.tripLengthRules == q.tripLengthRules && p.preferLongTrips == q.preferLongTrips
    ensures TripLengthCandidates(p) == TripLengthCandidates(q)
  {
  }

  /** The facet candidates depend on the four facet settings only. */
  lemma {:induction false} FacetCandidatesAgree(p: PreferenceProfile, q: PreferenceProfile)
    requires p.preferLongLayovers == q.preferLongLayovers && p.reserveAvoidanceLevel == q.reserveAvoidanceLevel
    requires p.earliestPreferredReportTime == q.earliestPreferredReportTime
    requires p.latestPreferredReportTime == q.latestPreferredReportTime
    ensures FacetCandidates(p) == FacetCandidates(q)
  {
    assert LayoverFacet(p) == LayoverFacet(q) && ReserveFacet(p) == ReserveFacet(q);
    assert EarliestReportFacet(p) == EarliestReportFacet(q) && LatestReportFacet(p) == LatestReportFacet(q);
  }

  /** Without structured destination rules, the first avoided destination
      (score 120) outranks everything else and leads the group. */
  lemma {:induction false} AvoidDestinationLeads(p: PreferenceProfile, maxLines: int)
    requires |p.destinationRules| == 0 && |p.avoidDestinations| > 0 && maxLines >= 1
    ensures |SimpleBidGroup(p, maxLines)| > 0
    ensures SimpleBidGroup(p, maxLines)[0] == AvoidCandidate(p.avoidDestinations[0]).command
  {
    FallbackScores(p);
    CompileLeader(Candidates(p), maxLines, 120);
  }

  /** Without structured destination rules, no candidate scores above 120,
      and those scoring 120 are exactly the avoided destinations, in order. */
  lemma {:induction false} FallbackScores(p: PreferenceProfile)
    requires |p.destinationRules| == 0
    ensures forall i :: 0 <= i < |Candidates(p)| ==> Candidates(p)[i].score <= 120
    ensures WithScore(Candidates(p), 120) == AvoidCandidates(p.avoidDestinations)
  {
    var pref := PreferredCandidates(p.preferredDestinations);
    var avoid := AvoidCandidates(p.avoidDestinations);
    var rest := TripLengthCandidates(p) + FacetCandidates(p);
    assert DestinationCandidates(p) == pref + avoid;
    ConcatAssoc(pref + avoid, TripLengthCandidates(p), FacetCandidates(p));
    PreferredScoresBelow(p.preferredDestinations);
    AvoidScores(p.avoidDestinations);
    RestScoresBelow(p);
    WithScoreOfThree(pref, avoid, rest, 120);
  }

  lemma {:induction false} PreferredScoresBelow(dests: seq<string>)
    ensures ScoresBelow(PreferredCandidates(dests), 120)
  {
  }

  lemma {:induction false} AvoidScores(dests: seq<string>)
    ensures forall i :: 0 <= i < |AvoidCandidates(dests)| ==> AvoidCandidates(dests)[i].score == 120
  {
  }

  predicate ScoresBelow(s: seq<ScoredCommand>, v: int) {
    forall i :: 0 <= i < |s| ==> s[i].score < v
  }

  /** The elements scoring `v` of a list whose middle part is all `v` and
      whose other parts score less. */
  lemma {:induction false} WithScoreOfThree(a: seq<ScoredCommand>, b: seq<ScoredCommand>, c: seq<ScoredCommand>, v: int)
    requires ScoresBelow(a, v) && ScoresBelow(c, v)
    requires forall i :: 0 <= i < |b| ==> b[i].score == v
    ensures forall i :: 0 <= i < |a + b + c| ==> (a + b + c)[i].score <= v
    ensures WithScore(a + b + c, v) == b
  {
    ScoresAtMostOfThree(a, b, c, v);
    WithScoreExactOfThree(a, b, c, v);
  }

  lemma {:induction false} WithScoreExactOfThree(a: seq<ScoredCommand>, b: seq<ScoredCommand>, c: seq<ScoredCommand>, v: int)
    requires ScoresBelow(a, v) && ScoresBelow(c, v)
    requires forall i :: 0 <= i < |b| ==> b[i].score == v
    ensures WithScore(a + b + c, v) == b
  {
    WithScoreBelow(a, v);
    WithScoreBelow(c, v);
    WithScoreAll(b, v);
    WithScoreAppend(a + b, c, v);
    WithScoreAppend(a, b, v);
    assert [] + b == b && b + [] == b;
  }

  lemma {:induction false} ScoresAtMostOfThree(a: seq<ScoredCommand>, b: seq<ScoredCommand>, c: seq<ScoredCommand>, v: int)
    requires ScoresBelow(a, v) && ScoresBelow(c, v)
    requires forall i :: 0 <= i < |b| ==> b[i].score == v
    ensures forall i :: 0 <= i < |a + b + c| ==> (a + b + c)[i].score <= v
  {
    var s := a + b + c;
    forall i | 0 <= i < |s| ensures s[i].score <= v {
      if i >= |a| + |b| {
        assert s[i] == c[i - |a| - |b|];
      } else if i >= |a| {
        assert s[i] == b[i - |a|];
      } else {
        assert s[i] == a[i];
      }
    }
  }

  /** When no element scores above `v` and some score exactly `v`, the
      stable sort puts the first of those in front. */
  lemma {:induction false} SortedLeaderHasTopScore(c: seq<ScoredCommand>, v: int)
    requires forall i :: 0 <= i < |c| ==> c[i].score <= v
    requires WithScore(c, v) != []
    requires WithScore(SortByScore(c), v) == WithScore(c, v)
    ensures SortByScore(c) != [] && SortByScore(c)[0] == WithScore(c, v)[0]
  {
    SortedHeadHasTopScore(c, v);
    WithScoreOfLeader(SortByScore(c), v);
  }

  /** The head of the sorted list scores the maximum `v`. */
  lemma {:induction false} SortedHeadHasTopScore(c: seq<ScoredCommand>, v: int)
    requires forall i :: 0 <= i < |c| ==> c[i].score <= v
    requires WithScore(c, v) != []
    ensures SortByScore(c) != [] && SortByScore(c)[0].score == v
  {
    var sorted := SortByScore(c);
    var w := WithScore(c, v);
    WithScoreMembers(c, v);
    assert w[0] in c;
    assert w[0] in multiset(sorted);
    var j :| 0 <= j < |sorted| && sorted[j] == w[0];
    assert sorted[0] in multiset(c);
    var k :| 0 <= k < |c| && c[k] == sorted[0];
  }

  lemma {:induction false} WithScoreOfLeader(s: seq<ScoredCommand>, v: int)
    requires s != [] && s[0].score == v
    ensures WithScore(s, v) != [] && WithScore(s, v)[0] == s[0]
  {
  }

  lemma {:induction false} WithScoreMembers(s: seq<ScoredCommand>, v: int)
    ensures forall x :: x in WithScore(s, v) ==> x in s && x.score == v
    decreases |s|
  {
    if s != [] {
      WithScoreMembers(s[1..], v);
    }
  }

  lemma {:induction false} WithScoreAll(s: seq<ScoredCommand>, v: int)
    requires forall i :: 0 <= i < |s| ==> s[i].score == v
    ensures WithScore(s, v) == s
    decreases |s|
  {
    if s != [] {
      WithScoreAll(s[1..], v);
    }
  }

  lemma {:induction false} RestScoresBelow(p: PreferenceProfile)
    ensures ScoresBelow(TripLengthCandidates(p) + FacetCandidates(p), 120)
  {
    TripLengthScoresBelow(p);
    FacetScoresBelow(p);
    ScoresBelowAppend(TripLengthCandidates(p), FacetCandidates(p), 120);
  }

  lemma {:induction false} TripLengthScoresBelow(p: PreferenceProfile)
    ensures ScoresBelow(TripLengthCandidates(p), 120)
  {
    if |p.tripLengthRules| > 0 {
      TripLengthRuleScores(p.tripLengthRules);
    }
  }

  lemma {:induction false} FacetScoresBelow(p: PreferenceProfile)
    ensures ScoresBelow(FacetCandidates(p), 120)
  {
    var layover, reserve := LayoverFacet(p), ReserveFacet(p);
    var earliest, latest := EarliestReportFacet(p), LatestReportFacet(p);
    assert ScoresBelow(layover, 120) && ScoresBelow(reserve, 120);
    assert ScoresBelow(earliest, 120) && ScoresBelow(latest, 120);
    ScoresBelowAppend(layover, reserve, 120);
    ScoresBelowAppend(layover + reserve, earliest, 120);
    ScoresBelowAppend(layover + reserve + earliest, latest, 120);
  }

  lemma {:induction false} ScoresBelowAppend(a: seq<ScoredCommand>, b: seq<ScoredCommand>, v: int)
    requires ScoresBelow(a, v) && ScoresBelow(b, v)
    ensures ScoresBelow(a + b, v)
  {
    forall i | 0 <= i < |a + b| ensures (a + b)[i].score < v {
      if i >= |a| {
        assert (a + b)[i] == b[i - |a|];
      }
    }
  }

  lemma {:induction false} TripLengthRuleScores(rules: seq<TripLengthRule>)
    ensures ScoresBelow(TripLengthRuleCandidates(rules), 81)
  {
    var t := TripLengthRuleCandidates(rules);
    forall i | 0 <= i < |t| ensures t[i].score < 81 {
      assert t[i] == TripLengthRuleCandidate(rules[i], i);
    }
  }

  // ---------------------------------------------------------------------------
  // What the compiled commands select
  // ---------------------------------------------------------------------------

  /** A trip-length rule with non-negative numbers yields a command the
      matcher reads back: it selects the trips of at least `minDays` days and,
      when a maximum is given, at most `maxDays`. */
  lemma {:induction false} TripLengthRuleSelects(rule: TripLengthRule, index: int, trips: seq<Trip>)
    requires rule.minDays >= 0 && (rule.maxDays.Some? ==> rule.maxDays.value >= 0)
    ensures var cmd := TripLengthRuleCandidate(rule, index).command;
            forall t :: t in TripsAffectedByCommand(cmd, trips) <==>
              t in trips && rule.minDays <= t.tripDays
              && (rule.maxDays.Some? ==> t.tripDays <= rule.maxDays.value)
  {
    var cmd := TripLengthRuleCandidate(rule, index).command;
    RuleQualifierSelects(cmd, rule, trips);
  }

  lemma {:induction false} RuleQualifierSelects(cmd: TripPropertyCommand, rule: TripLengthRule, trips: seq<Trip>)
    requires rule.minDays >= 0 && (rule.maxDays.Some? ==> rule.maxDays.value >= 0)
    requires cmd.property == TripLength && cmd.qualifier == Some(BuildTripLengthQualifier(rule))
    ensures forall t :: t in TripsAffectedByCommand(cmd, trips) <==>
              t in trips && rule.minDays <= t.tripDays
              && (rule.maxDays.Some? ==> t.tripDays <= rule.maxDays.value)
  {
    var a := NatToString(rule.minDays);
    DigitsValueOfNatToString(rule.minDays);
    if rule.maxDays.None? {
      OpenRuleSelects(cmd, a, trips);
    } else if rule.maxDays.value == rule.minDays {
      var q := a + "D";
      TrimNoop(q);
      TripLengthExactSelects(cmd, trips, q, a);
    } else {
      var b := NatToString(rule.maxDays.value);
      DigitsValueOfNatToString(rule.maxDays.value);
      var q := a + "-" + b + "D";
      TrimNoop(q);
      TripLengthRangeSelects(cmd, trips, q, a, b);
    }
  }

  lemma {:induction false} OpenRuleSelects(cmd: TripPropertyCommand, a: string, trips: seq<Trip>)
    requires IsDigits(a) && |a| > 0
    requires cmd.property == TripLength && cmd.qualifier == Some(">= " + a + "D")
    ensures forall t :: t in TripsAffectedByCommand(cmd, trips) <==> t in trips && t.tripDays >= DigitsValue(a)
  {
    var q := ">=" + " " + a + "D";
    assert q == ">= " + a + "D";
    TrimNoop(q);
    TripLengthAtLeastSelects(cmd, trips, q, " ", a);
  }

  /** The long-layover command selects the trips whose layover estimate is
      at least 36 hours. */
  lemma {:induction false} LayoverFacetSelects(trips: seq<Trip>)
    ensures forall t :: t in TripsAffectedByCommand(LayoverCandidate().command, trips) <==>
              t in trips && t.layoverHoursEstimate.Some? && t.layoverHoursEstimate.value >= 36
  {
    var h := "36";
    assert ">= 36:00" == LayoverQualifier(AtLeast, " ", h, Some("00"));
    assert DigitsValue(h) == 36 by { TwoDigitsBelowHundred(h); }
    assert DigitsValue("00") == 0 by { TwoDigitsBelowHundred("00"); }
    LayoverSelects(LayoverCandidate().command, trips, AtLeast, " ", h, Some("00"));
  }

  /** The reserve-avoidance command selects the trips credited with less
      than 12 hours. */
  lemma {:induction false} ReserveFacetSelects(trips: seq<Trip>)
    ensures forall t :: t in TripsAffectedByCommand(ReserveCandidate().command, trips) <==>
              t in trips && CreditIs(t, Less, 720)
  {
    ReserveQualifierShape();
    ClockCriterionOf(Less, " ", "12", "00", "", 3, false);
    ClockCommandCriterion(ReserveCandidate().command, 3, false, CreditBound(Less, 720));
    CreditBoundSelects(ReserveCandidate().command, trips, Less, 720);
  }

  lemma {:induction false} ReserveQualifierShape()
    ensures ReserveCandidate().command.qualifier == Some(ClockQualifier(Less, " ", "12", "00", ""))
    ensures DigitsValue("12") * 60 + DigitsValue("00") == 720
  {
    assert "< 12:00" == ClockQualifier(Less, " ", "12", "00", "");
    TwoDigitsBelowHundred("12");
    TwoDigitsBelowHundred("00");
  }

  /** The report-time commands select the trips reporting before the earliest
      and after the latest preferred time, when that time is a clock time. */
  lemma {:induction false} ReportFacetsSelect(t: string, bound: nat, trips: seq<Trip>)
    requires ParseHoursMinutes(t) == Some(bound) && |t| <= 5
    ensures forall x :: x in TripsAffectedByCommand(EarliestReportCandidate(t).command, trips) <==>
              x in trips && ReportTimeIs(x, Less, bound)
    ensures forall x :: x in TripsAffectedByCommand(LatestReportCandidate(t).command, trips) <==>
              x in trips && ReportTimeIs(x, Greater, bound)
  {
    assert "< " + t == ComparisonText(Less) + " " + t;
    assert "> " + t == ComparisonText(Greater) + " " + t;
    ReportClockSelects(EarliestReportCandidate(t).command, trips, Less, t, bound);
    ReportClockSelects(LatestReportCandidate(t).command, trips, Greater, t, bound);
  }
}
