/** The sample trip catalogue (src/data/sampleTrips.ts) and what the matcher
    selects from it for the destination the demo group asks for. */
module SampleTrips {
  import opened Wrappers
  import opened Text
  import opened RuleTypes
  import opened TripMatching

  const Route7024: string := "LHR \U{2013} MLE \U{2013} LHR (BA061/060)"

  const Trip7024: Trip :=
    Trip("7024", Route7024, "LHR", "Jan 2026", "73:50", "21:50", 4,
         "21:50", "25:40", None, None)

  const Route7202: string := "LHR \U{2013} LAX \U{2013} LHR (BA283/282)"

  const Trip7202: Trip :=
    Trip("7202", Route7202, "LHR", "Jan 2026", "73:55", "21:55", 4,
         "21:55", "25:40", None, None)

  const Route7174: string := "LHR \U{2013} JFK \U{2013} LHR (BA173/176)"

  const Trip7174: Trip :=
    Trip("7174", Route7174, "LHR", "Jan 2026", "45:50", "15:00", 3,
         "15:00", "18:45", None, None)

  /** `sampleTrips`, in catalogue order. */
  const SampleTripList: seq<Trip> := [Trip7024, Trip7202, Trip7174]

  /** A DESTINATION command for "MLE" picks out only trip 7024 from the
      sample catalogue: it is the only route through MLE. */
  lemma {:induction false} MleSelectsOnly7024(cmd: TripPropertyCommand)
    requires cmd.property == Destination && cmd.qualifier == Some("MLE")
    ensures TripsAffectedByCommand(cmd, SampleTripList) == [Trip7024]
  {
    assert ToUpper("MLE") == "MLE";
    var c := RouteIncludes("MLE");
    assert ParseCriterion(cmd) == Some(c);
    RouteThroughMle();
    NoMleOn7202();
    NoMleOn7174();
    FilterStep(SampleTripList, c);
    assert SampleTripList[1..] == [Trip7202, Trip7174];
    FilterStep([Trip7202, Trip7174], c);
    assert [Trip7202, Trip7174][1..] == [Trip7174];
    FilterStep([Trip7174], c);
    assert [Trip7174][1..] == [];
  }

  /** One step of the filter: the head is kept exactly when it satisfies. */
  lemma {:induction false} FilterStep(trips: seq<Trip>, c: Criterion)
    requires trips != []
    ensures FilterTrips(trips, c) == (if Satisfies(c, trips[0]) then [trips[0]] else []) + FilterTrips(trips[1..], c)
  {
  }

  /** The upper-cased route of 7024 has "MLE" at position 6. */
  lemma {:induction false} RouteThroughMle()
    ensures Includes(ToUpper(Trip7024.route), "MLE")
  {
    var u := ToUpper(Trip7024.route);
    MleAtSix();
    assert u[6] == 'M' && u[7] == 'L' && u[8] == 'E';
    assert u[6..9] == "MLE";
    assert OccursAt(u, "MLE", 6);
    IncludesIffSlice(u, "MLE");
  }

  lemma {:induction false} NoMleOn7202()
    ensures !Includes(ToUpper(Trip7202.route), "MLE")
  {
    NoMOn7202();
    NoMleOn(Trip7202.route);
  }

  lemma {:induction false} NoMOn7202()
    ensures 'M' !in Route7202 && 'm' !in Route7202
  {
  }

  lemma {:induction false} NoMleOn7174()
    ensures !Includes(ToUpper(Trip7174.route), "MLE")
  {
    NoMOn7174();
    NoMleOn(Trip7174.route);
  }

  lemma {:induction false} NoMOn7174()
    ensures 'M' !in Route7174 && 'm' !in Route7174
  {
  }

  lemma {:induction false} MleAtSix()
    ensures Trip7024.route == Route7024 && |Route7024| > 8
    ensures Route7024[6] == 'M' && Route7024[7] == 'L' && Route7024[8] == 'E'
  {
  }

  /** A route with no 'M' in either case cannot contain "MLE" once upper-cased. */
  lemma {:induction false} NoMleOn(route: string)
    requires 'M' !in route && 'm' !in route
    ensures !Includes(ToUpper(route), "MLE")
  {
    var u := ToUpper(route);
    forall i | 0 <= i < |u| ensures u[i] != 'M' {
      assert route[i] in route;
    }
    FirstCharMissing(u, "MLE");
  }

  /** A text that lacks the first character of `sub` does not include it. */
  lemma {:induction false} FirstCharMissing(s: string, sub: string)
    requires |sub| > 0 && sub[0] !in s
    ensures !Includes(s, sub)
    decreases |s|
  {
    if s != [] {
      assert s[0] in s;
      if |sub| <= |s| {
        assert s[..|sub|][0] != sub[0];
      }
      assert forall x :: x in s[1..] ==> x in s;
      FirstCharMissing(s[1..], sub);
    }
  }
}
