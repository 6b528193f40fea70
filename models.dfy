/**
 * The entities of the climbing log (tickle/models.py), the check constraint
 * shared by attempts and to-dos, and the store that holds one table per
 * model together with the integrity rules the database enforces on it.
 */
module Models {
  import opened Wrappers
  import opened Conditions
  import opened Tables

  /** A boulder grade; `order` ranks grades, `name` is the label shown. */
  datatype BoulderDifficulty = BoulderDifficulty(order: nat, name: string)

  /** A boulder problem; `difficulty` is NULL when it is unrated. */
  datatype Boulder = Boulder(name: string, difficulty: Option<Id>, mountainproject: string)

  /** One pitch of a route: its position, its route and its grade. */
  datatype Pitch = Pitch(order: nat, route: Id, difficulty: Id)

  datatype ProtectionStyle = Sport | TopRope | Trad

  datatype Route = Route(name: string, protectionStyle: ProtectionStyle, mountainproject: string)

  /** A route grade. */
  datatype RouteDifficulty = RouteDifficulty(order: nat, name: string)

  datatype AttemptResult = Send | Fall

  /** The protection used or intended; `TopRopeAnchor` is the choice 'tr'. */
  datatype Protection = NoProtection | Bolts | Gear | Pad | TopRopeAnchor

  /** A calendar date, as a day number: only its order matters here. */
  type Date = nat

  datatype Attempt = Attempt(
    user: Id,
    date: Date,
    notes: string,
    boulder: Option<Id>,
    route: Option<Id>,
    result: AttemptResult,
    priorKnowledge: bool,
    protectionUsed: Protection)

  datatype Style = OnSight | Flash | Project | Other

  datatype Todo = Todo(
    user: Id,
    notes: string,
    protection: Protection,
    boulder: Option<Id>,
    route: Option<Id>,
    style: Style)

  /** What the model layer can raise. */
  datatype Error =
    | ProtectedError    // deleting a row that a PROTECT foreign key still refers to
    | IntegrityError    // a write the database's constraints reject
    | AttributeError    // an attribute read on `None`
    | PlainException    // the bare `raise Exception()` of Todo.__str__

  // ---------------------------------------------------------------------
  // The boulder-xor-route check constraint

  /** The two nullable climb columns of an attempt or a to-do. */
  datatype ClimbField = BoulderField | RouteField

  /** An atomic lookup `<field>__isnull=True`. */
  datatype Lookup = IsNull(field: ClimbField)

  /** `Q(boulder__isnull=True) ^ Q(route__isnull=True)`, the condition of
      the constraints 'attempt_boulder_xor_route' and 'todo_boulder_xor_route'. */
  const BoulderXorRoute: Cond<Lookup> := Xor(Atom(IsNull(BoulderField)), Atom(IsNull(RouteField)))

  /** The lookups that hold for a row whose climb columns are `boulder` and `route`. */
  function NullLookups(boulder: Option<Id>, route: Option<Id>): set<Lookup>
  {
    (if boulder.None? then {IsNull(BoulderField)} else {})
    + (if route.None? then {IsNull(RouteField)} else {})
  }

  /** The check constraint on one row: it holds exactly when one of the two
      climb columns is set, never both and never neither. */
  function SatisfiesBoulderXorRoute(boulder: Option<Id>, route: Option<Id>): (ok: bool)
    ensures ok <==> (boulder.Some? && route.None?) || (boulder.None? && route.Some?)
  {
    var v := NullLookups(boulder, route);
    assert (IsNull(BoulderField) in v) == boulder.None?;
    assert (IsNull(RouteField) in v) == route.None?;
    Eval(BoulderXorRoute, v)
  }

  /** 'attempt_boulder_xor_route' holds of `a`. */
  function AttemptBoulderXorRoute(a: Attempt): (ok: bool)
    ensures ok ==> a.boulder.Some? != a.route.Some?
    ensures !ok ==> (a.boulder.Some? && a.route.Some?) || (a.boulder.None? && a.route.None?)
  {
    SatisfiesBoulderXorRoute(a.boulder, a.route)
  }

  /** 'todo_boulder_xor_route' holds of `t`. */
  function TodoBoulderXorRoute(t: Todo): (ok: bool)
    ensures ok ==> t.boulder.Some? != t.route.Some?
    ensures !ok ==> (t.boulder.Some? && t.route.Some?) || (t.boulder.None? && t.route.None?)
  {
    SatisfiesBoulderXorRoute(t.boulder, t.route)
  }

  // ---------------------------------------------------------------------
  // The store

  /** One table per model; `users` are the keys of the external user table. */
  datatype Store = Store(
    users: set<Id>,
    boulderDifficulties: seq<Row<BoulderDifficulty>>,
    boulders: seq<Row<Boulder>>,
    routeDifficulties: seq<Row<RouteDifficulty>>,
    routes: seq<Row<Route>>,
    pitches: seq<Row<Pitch>>,
    attempts: seq<Row<Attempt>>,
    todos: seq<Row<Todo>>)

  predicate KeysUnique(s: Store)
  {
    && UniqueIds(s.boulderDifficulties)
    && UniqueIds(s.boulders)
    && UniqueIds(s.routeDifficulties)
    && UniqueIds(s.routes)
    && UniqueIds(s.pitches)
    && UniqueIds(s.attempts)
    && UniqueIds(s.todos)
  }

  predicate BoulderRefsOk(s: Store, b: Boulder)
  {
    b.difficulty.Some? ==> b.difficulty.value in Ids(s.boulderDifficulties)
  }

  predicate PitchRefsOk(s: Store, p: Pitch)
  {
    p.route in Ids(s.routes) && p.difficulty in Ids(s.routeDifficulties)
  }

  predicate AttemptRefsOk(s: Store, a: Attempt)
  {
    && a.user in s.users
    && (a.boulder.Some? ==> a.boulder.value in Ids(s.boulders))
    && (a.route.Some? ==> a.route.value in Ids(s.routes))
  }

  predicate TodoRefsOk(s: Store, t: Todo)
  {
    && t.user in s.users
    && (t.boulder.Some? ==> t.boulder.value in Ids(s.boulders))
    && (t.route.Some? ==> t.route.value in Ids(s.routes))
  }

  /** Every foreign key refers to an existing row. */
  predicate ForeignKeysOk(s: Store)
  {
    && (forall b :: b in s.boulders ==> BoulderRefsOk(s, b.val))
    && (forall p :: p in s.pitches ==> PitchRefsOk(s, p.val))
    && (forall a :: a in s.attempts ==> AttemptRefsOk(s, a.val))
    && (forall t :: t in s.todos ==> TodoRefsOk(s, t.val))
  }

  /** Every attempt and every to-do satisfies its check constraint. */
  predicate ChecksOk(s: Store)
  {
    && (forall a :: a in s.attempts ==> AttemptBoulderXorRoute(a.val))
    && (forall t :: t in s.todos ==> TodoBoulderXorRoute(t.val))
  }

  /** What the database guarantees of every committed state. */
  predicate Valid(s: Store)
  {
    KeysUnique(s) && ForeignKeysOk(s) && ChecksOk(s)
  }
}
