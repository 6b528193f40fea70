/**
 * Concrete stores that exercise the rules: the hardest-pitch example, a
 * boulder attempt accepted and a two-climb attempt rejected by the check
 * constraint, and a to-do whose string form fails although every
 * constraint holds.
 */
module Scenarios {
  import opened Wrappers
  import opened Tables
  import opened Models
  import opened Queries
  import opened Writes

  /** One user (key 1), an unrated boulder (key 1), and a route (key 1) whose
      three pitches are graded with orders 2, 5 and 3. */
  function Crag(): Store
  {
    Store(
      users := {1},
      boulderDifficulties := [],
      boulders := [Row(1, Boulder("Midnight Lightning", None, ""))],
      routeDifficulties := [Row(1, RouteDifficulty(2, "5.8")), Row(2, RouteDifficulty(5, "5.11")), Row(3, RouteDifficulty(3, "5.9"))],
      routes := [Row(1, Route("Serenity Crack", Trad, ""))],
      pitches := [Row(1, Pitch(1, 1, 1)), Row(2, Pitch(2, 1, 2)), Row(3, Pitch(3, 1, 3))],
      attempts := [],
      todos := [])
  }

  lemma CragValid()
    ensures Valid(Crag())
  {
  }

  /** The route's difficulty is the grade of order 5. */
  lemma HardestOfThreePitches()
    ensures DifficultyOfRoute(Crag(), 1) == Ok(Row(2, RouteDifficulty(5, "5.11")))
  {
    CragValid();
  }

  /** A fall on the unrated boulder, padded, with no route, is accepted and is
      the user's only attempt; the same attempt naming the route as well is
      rejected. */
  lemma BoulderAttemptScenario()
    ensures SaveAttempt(Crag(), 7, Attempt(1, 0, "", Some(1), None, Fall, true, Pad)).Ok?
    ensures SaveAttempt(Crag(), 7, Attempt(1, 0, "", Some(1), None, Fall, true, Pad)).value.attempts
            == [Row(7, Attempt(1, 0, "", Some(1), None, Fall, true, Pad))]
    ensures SaveAttempt(Crag(), 7, Attempt(1, 0, "", Some(1), Some(1), Fall, true, Pad)) == Err(IntegrityError)
  {
  }

  /** Check constraint and foreign keys hold, yet rendering a to-do for a
      route that has no pitches yet raises inside `Route.__str__`. */
  lemma TodoStrFailsForRouteWithoutPitches()
    ensures var s := Crag().(routes := Crag().routes + [Row(2, Route("New Line", Sport, ""))]);
            var t := Todo(1, "", Bolts, None, Some(2), Project);
            Valid(s) && TodoRefsOk(s, t) && TodoBoulderXorRoute(t) && TodoStr(s, t) == Err(AttributeError)
  {
    var s := Crag().(routes := Crag().routes + [Row(2, Route("New Line", Sport, ""))]);
    CragValid();
    assert Valid(s);
    assert PitchesOf(s, 2) == [];
  }
}
