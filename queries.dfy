/**
 * Read-side behaviour of the models: the derived `Route.difficulty`, the
 * declared `Meta.ordering`s, and which climb `__str__` renders.
 */
module Queries {
  import opened Wrappers
  import opened Tables
  import opened Models

  // ---------------------------------------------------------------------
  // Route.difficulty

  /** The filter behind the reverse relation `route.pitches`. */
  function OnRoute(route: Id): Row<Pitch> -> bool
  {
    (p: Row<Pitch>) => p.val.route == route
  }

  /** `route.pitches`: the pitches whose route is `route`. */
  function PitchesOf(s: Store, route: Id): (ps: seq<Row<Pitch>>)
    ensures forall p :: p in ps <==> p in s.pitches && p.val.route == route
  {
    Where(s.pitches, OnRoute(route))
  }

  /** `pitch.difficulty.order`, following the foreign key. */
  function DifficultyOrder(grades: seq<Row<RouteDifficulty>>, p: Pitch): nat
    requires p.difficulty in Ids(grades)
  {
    Find(grades, p.difficulty).value.order
  }

  /** `pitches.order_by('-difficulty__order').first()`: `None` for no pitches,
      otherwise a pitch whose grade is ranked highest. Among equally ranked
      pitches the earliest in table order is taken. */
  function HardestPitch(grades: seq<Row<RouteDifficulty>>, ps: seq<Row<Pitch>>): (r: Option<Row<Pitch>>)
    requires forall p :: p in ps ==> p.val.difficulty in Ids(grades)
    ensures r.None? <==> ps == []
    ensures r.Some? ==> r.value in ps
    ensures r.Some? ==> forall p :: p in ps ==> DifficultyOrder(grades, p.val) <= DifficultyOrder(grades, r.value.val)
  {
    if ps == [] then None
    else
      var rest := HardestPitch(grades, ps[1..]);
      if rest.None? || DifficultyOrder(grades, rest.value.val) <= DifficultyOrder(grades, ps[0].val) then Some(ps[0])
      else rest
  }

  /** In a valid store, `DifficultyOrder` is the order of THE grade the pitch refers to. */
  lemma DifficultyOrderIs(s: Store, p: Pitch, d: Row<RouteDifficulty>)
    requires Valid(s) && d in s.routeDifficulties && d.id == p.difficulty
    ensures DifficultyOrder(s.routeDifficulties, p) == d.val.order
  {
  }

  /** The property `Route.difficulty` of the route with key `route`. With no
      pitches, `.first()` gives `None` and reading `.difficulty` of it raises;
      otherwise the result is the grade of one of the route's pitches, ranked
      at least as high as the grade of every pitch of the route. */
  function DifficultyOfRoute(s: Store, route: Id): (r: Result<Row<RouteDifficulty>, Error>)
    requires Valid(s)
    ensures r.Err? <==> PitchesOf(s, route) == []
    ensures r.Err? ==> r.error == AttributeError
    ensures r.Ok? ==> r.value in s.routeDifficulties
    ensures r.Ok? ==> exists p :: p in PitchesOf(s, route) && p.val.difficulty == r.value.id
    ensures r.Ok? ==> forall p, d :: p in PitchesOf(s, route) && d in s.routeDifficulties && d.id == p.val.difficulty
                                     ==> d.val.order <= r.value.val.order
  {
    var ps := PitchesOf(s, route);
    match HardestPitch(s.routeDifficulties, ps)
    case None => Err(AttributeError)
    case Some(top) =>
      var d := Row(top.val.difficulty, Find(s.routeDifficulties, top.val.difficulty).value);
      assert forall p, e :: p in ps && e in s.routeDifficulties && e.id == p.val.difficulty
                            ==> e.val.order <= d.val.order by {
        forall p, e | p in ps && e in s.routeDifficulties && e.id == p.val.difficulty
          ensures e.val.order <= d.val.order
        {
          DifficultyOrderIs(s, p.val, e);
        }
      }
      Ok(d)
  }

  // ---------------------------------------------------------------------
  // Declared orderings

  function BoulderDifficultyOrder(d: Row<BoulderDifficulty>): int { d.val.order }

  function PitchOrder(p: Row<Pitch>): int { p.val.order }

  function AttemptDate(a: Row<Attempt>): int { a.val.date }

  /** `BoulderDifficulty.objects.all()` under `ordering = ('order',)`. */
  function ListBoulderDifficulties(s: Store): (r: seq<Row<BoulderDifficulty>>)
    ensures SortedBy(r, BoulderDifficultyOrder)
    ensures multiset(r) == multiset(s.boulderDifficulties)
  {
    SortByCorrect(s.boulderDifficulties, BoulderDifficultyOrder);
    SortBy(s.boulderDifficulties, BoulderDifficultyOrder)
  }

  /** `route.pitches.all()` under `ordering = ('order',)`. */
  function RoutePitches(s: Store, route: Id): (r: seq<Row<Pitch>>)
    ensures SortedBy(r, PitchOrder)
    ensures forall p :: p in r <==> p in s.pitches && p.val.route == route
    ensures multiset(r) == multiset(PitchesOf(s, route))
  {
    SortByCorrect(PitchesOf(s, route), PitchOrder);
    var r := SortBy(PitchesOf(s, route), PitchOrder);
    assert forall p :: p in r <==> p in multiset(r);
    r
  }

  /** `Attempt.objects.all()` under `ordering = ('date',)`. */
  function ListAttempts(s: Store): (r: seq<Row<Attempt>>)
    ensures SortedBy(r, AttemptDate)
    ensures multiset(r) == multiset(s.attempts)
  {
    SortByCorrect(s.attempts, AttemptDate);
    SortBy(s.attempts, AttemptDate)
  }

  // ---------------------------------------------------------------------
  // String forms: which climb and which grade are rendered

  /** The parts of `'{} ({})'.format(name, difficulty)`; a `None` difficulty
      renders as Python's `None`. */
  datatype Label = Label(name: string, difficulty: Option<string>)

  /** `Boulder.__str__`: the boulder's name and the name of its grade, if rated. */
  function BoulderStr(s: Store, b: Boulder): (r: Label)
    requires BoulderRefsOk(s, b)
    ensures r.name == b.name
    ensures r.difficulty.None? <==> b.difficulty.None?
    ensures r.difficulty.Some? ==>
      exists d :: d in s.boulderDifficulties && Some(d.id) == b.difficulty && d.val.name == r.difficulty.value
  {
    match b.difficulty
    case None => Label(b.name, None)
    case Some(id) => Label(b.name, Some(Find(s.boulderDifficulties, id).value.name))
  }

  /** `Route.__str__`: the route's name and the name of `Route.difficulty`,
      raising as that property does when the route has no pitches. */
  function RouteStr(s: Store, route: Row<Route>): (r: Result<Label, Error>)
    requires Valid(s)
    ensures r.Err? <==> PitchesOf(s, route.id) == []
    ensures r.Err? ==> r.error == AttributeError
    ensures r.Ok? ==> r.value.name == route.val.name
    ensures r.Ok? ==> DifficultyOfRoute(s, route.id).Ok?
                      && r.value.difficulty == Some(DifficultyOfRoute(s, route.id).value.val.name)
  {
    match DifficultyOfRoute(s, route.id)
    case Err(e) => Err(e)
    case Ok(d) => Ok(Label(route.val.name, Some(d.val.name)))
  }

  /** The climb a to-do is about. */
  datatype Climb = BoulderClimb(boulder: Id) | RouteClimb(route: Id)

  /** The branch of `Todo.__str__` that picks the climb to render. */
  function TodoClimb(t: Todo): Result<Climb, Error>
  {
    if t.boulder.Some? then Ok(BoulderClimb(t.boulder.value))
    else if t.route.Some? then Ok(RouteClimb(t.route.value))
    else Err(PlainException)
  }

  /** The boulder wins when set; the route is used only when the boulder is
      not; with neither, the method raises. */
  lemma TodoClimbChoice(t: Todo)
    ensures t.boulder.Some? ==> TodoClimb(t) == Ok(BoulderClimb(t.boulder.value))
    ensures t.boulder.None? && t.route.Some? ==> TodoClimb(t) == Ok(RouteClimb(t.route.value))
    ensures TodoClimb(t).Err? <==> t.boulder.None? && t.route.None?
  {
  }

  /** Under 'todo_boulder_xor_route' the raising branch is unreachable and the
      climb chosen is the one column that is set. */
  lemma TodoClimbUnderCheck(t: Todo)
    requires TodoBoulderXorRoute(t)
    ensures TodoClimb(t).Ok?
    ensures forall b: Id :: TodoClimb(t) == Ok(BoulderClimb(b)) <==> t.boulder == Some(b)
    ensures forall r: Id :: TodoClimb(t) == Ok(RouteClimb(r)) <==> t.route == Some(r)
  {
  }

  /** The parts of `'{} {}'.format(self.style, climb)`. */
  datatype TodoLabel = TodoLabel(style: Style, climb: Label)

  /** `Todo.__str__`: the style and the string form of the chosen climb. */
  function TodoStr(s: Store, t: Todo): (r: Result<TodoLabel, Error>)
    requires Valid(s) && TodoRefsOk(s, t)
    ensures r.Err? <==> t.boulder.None? && (t.route.None? || PitchesOf(s, t.route.value) == [])
    ensures r.Err? ==> r.error == (if t.route.None? then PlainException else AttributeError)
    ensures r.Ok? ==> r.value.style == t.style
    ensures t.boulder.Some? ==>
              r.Ok? && exists b :: b in s.boulders && Some(b.id) == t.boulder && r.value.climb == BoulderStr(s, b.val)
    ensures t.boulder.None? && r.Ok? ==>
              exists rt :: rt in s.routes && Some(rt.id) == t.route && RouteStr(s, rt).Ok? && r.value.climb == RouteStr(s, rt).value
  {
    match TodoClimb(t)
    case Err(e) => Err(e)
    case Ok(BoulderClimb(id)) =>
      var b := Row(id, Find(s.boulders, id).value);
      Ok(TodoLabel(t.style, BoulderStr(s, b.val)))
    case Ok(RouteClimb(id)) =>
      var rt := Row(id, Find(s.routes, id).value);
      match RouteStr(s, rt)
      case Err(e) => Err(e)
      case Ok(shown) => Ok(TodoLabel(t.style, shown))
  }

  /** Under the check constraint `Todo.__str__` never reaches its bare
      `raise`; it can still fail, but only through `Route.__str__` for a
      route that has no pitches. */
  lemma TodoStrUnderCheck(s: Store, t: Todo)
    requires Valid(s) && TodoRefsOk(s, t) && TodoBoulderXorRoute(t)
    ensures TodoStr(s, t) != Err(PlainException)
    ensures TodoStr(s, t).Err? <==> t.route.Some? && PitchesOf(s, t.route.value) == []
  {
  }
}
