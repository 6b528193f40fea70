# tickle models in Dafny

A model of the data layer of *tickle*, a personal climbing log: boulder
problems and multi-pitch routes, their grades, and a user's attempts and
to-do list. The model covers the parts of `tickle/models.py` whose rules can
be stated exactly:

- the exclusive-or combinator on query conditions (`QQ.__xor__`) and the
  check constraints `attempt_boulder_xor_route` / `todo_boulder_xor_route`
  built from it: an attempt or a to-do names exactly one climb, a boulder or
  a route;
- the derived property `Route.difficulty`: the grade of the route's hardest
  pitch, which raises when the route has no pitches;
- which climb and which grade the string forms of `Boulder`, `Route` and
  `Todo` render;
- the `on_delete` policies, as operations on a store of tables: PROTECT
  refuses the delete, CASCADE removes the dependent rows;
- the declared `Meta.ordering`s of `BoulderDifficulty`, `Pitch` and `Attempt`.

Layout, one module per file:

- `wrappers.dfy` (`Wrappers`): `Option` (SQL NULL / `None`) and `Result`.
- `conditions.dfy` (`Conditions`): conditions as trees of `&`, `|`, `~`
  over atomic lookups, their meaning (`Eval`), and `Xor`.
- `tables.dfy` (`Tables`): a table is a sequence of rows, each with its
  primary key; lookup by key, filtering, and ordering by a key, with their
  properties.
- `models.dfy` (`Models`): the seven entities, the error kinds, the check
  constraint, the store and its integrity predicate `Valid` (unique keys,
  foreign keys that resolve, check constraints that hold).
- `queries.dfy` (`Queries`): `Route.difficulty`, the orderings, the string
  forms.
- `writes.dfy` (`Writes`): saving attempts and to-dos, the deletes, and what
  they preserve.
- `scenarios.dfy` (`Scenarios`): concrete stores that exercise the rules.

A refused write (`ProtectedError`, `IntegrityError`) returns `Err` and no new
store: Django's deletion collector raises `ProtectedError` before it removes
any row, and the database rejects the offending statement, so the store
after a refusal is the store before it.

`RouteDifficulty` declares no `Meta.ordering` (tickle/models.py:73-78), so no
ordered listing of route grades is modelled; the stored protection-style
choice is `toprope` (tickle/models.py:56).

## Model

| member | source | states |
|---|---|---|
| `Conditions.Xor` | tickle/models.py:7-8 | the combination `(a & ~b)` or `(~a & b)` holds, for every valuation of the atoms, exactly when the two operands have different truth values |
| `Conditions.XorSymmetric` | tickle/models.py:7-8 | `a ^ b` and `b ^ a` have the same meaning under every valuation |
| `Models.SatisfiesBoulderXorRoute` | tickle/models.py:104-109 | the condition `Q(boulder__isnull=True) ^ Q(route__isnull=True)` holds of a row iff exactly one of its boulder and route columns is set |
| `Models.AttemptBoulderXorRoute` | tickle/models.py:97-109 | an attempt satisfies its constraint iff exactly one of boulder and route is set; when it fails, both are set or neither is |
| `Models.TodoBoulderXorRoute` | tickle/models.py:124-134 | a to-do satisfies its constraint iff exactly one of boulder and route is set; when it fails, both are set or neither is |
| `Queries.PitchesOf` | tickle/models.py:37-41 | the reverse relation `route.pitches` holds exactly the pitches whose route is the given one |
| `Queries.HardestPitch` | tickle/models.py:68 | `order_by('-difficulty__order').first()` is `None` iff there are no pitches; otherwise it is one of the pitches and its grade order is at least that of every pitch |
| `Queries.DifficultyOfRoute` | tickle/models.py:66-68 | `Route.difficulty` raises (`AttributeError` on `None`) iff the route has no pitches; otherwise it is a grade in the grade table, the grade of one of the route's pitches, and ranked at least as high as every pitch's grade |
| `Queries.ListBoulderDifficulties` | tickle/models.py:29-30 | boulder grades are listed in ascending `order`, as a permutation of the table |
| `Queries.RoutePitches` | tickle/models.py:48-49 | a route's pitches are listed in ascending `order`; the listing holds exactly that route's pitches, each as often as in the table |
| `Queries.ListAttempts` | tickle/models.py:111 | attempts are listed in ascending `date`, as a permutation of the table |
| `Queries.BoulderStr` | tickle/models.py:22-23 | a boulder renders its own name and, when rated, the name of the grade its foreign key refers to; unrated renders `None` |
| `Queries.RouteStr` | tickle/models.py:70-71 | a route renders its own name and the name of the grade `Route.difficulty` returns; it raises `AttributeError` iff the route has no pitches |
| `Queries.TodoClimbChoice` | tickle/models.py:139-144 | `Todo.__str__` picks the boulder when one is set, the route only when no boulder is set, and raises iff neither is set |
| `Queries.TodoClimbUnderCheck` | tickle/models.py:129-144 | under `todo_boulder_xor_route` the raising branch is unreachable, and the climb picked is a boulder (a route) exactly when the to-do's boulder (route) column names it |
| `Queries.TodoStr` | tickle/models.py:138-146 | `Todo.__str__` fails iff no boulder is set and either no route is set (bare `Exception`) or the route has no pitches (`AttributeError`); otherwise it renders the to-do's style with the named boulder's string form, or with the named route's string form (its name and the grade of its hardest pitch) |
| `Queries.TodoStrUnderCheck` | tickle/models.py:138-146 | under the check constraint `Todo.__str__` never reaches `raise Exception()`; it fails only for a route with no pitches |
| `Writes.SaveAttempt` | tickle/models.py:93-109 | saving an attempt succeeds iff its user, boulder and route keys resolve and `attempt_boulder_xor_route` holds, otherwise `IntegrityError`; on success only the attempts table changes and it holds the saved row in place of any row with that key |
| `Writes.SaveTodo` | tickle/models.py:120-134 | the same for to-dos under `todo_boulder_xor_route` |
| `Writes.SaveAttemptKeepsValid` | tickle/models.py:93-109 | a successful attempt save keeps the store valid (unique keys, resolving foreign keys, check constraints) |
| `Writes.SaveTodoKeepsValid` | tickle/models.py:120-134 | a successful to-do save keeps the store valid |
| `Writes.DeleteBoulderDifficulty` | tickle/models.py:14-19 | deleting a boulder grade is refused with `ProtectedError` iff some boulder refers to it; otherwise exactly the rows with that key leave the grade table and nothing else changes |
| `Writes.DeleteRouteDifficulty` | tickle/models.py:42-46 | deleting a route grade is refused iff some pitch refers to it; otherwise exactly that grade is removed and nothing else changes |
| `Writes.DeleteBoulder` | tickle/models.py:97-124 | deleting a boulder is refused iff some attempt or to-do refers to it; otherwise exactly that boulder is removed and nothing else changes |
| `Writes.DeleteRoute` | tickle/models.py:37-125 | deleting a route is refused iff some attempt or to-do refers to it (PROTECT, lines 98 and 125); otherwise the route and exactly the pitches on it are removed (CASCADE, line 39) and no other table changes |
| `Writes.DeleteUser` | tickle/models.py:93-121 | deleting a user is never refused and removes exactly that user's attempts and to-dos (CASCADE); boulders, routes, pitches and grades are untouched |
| `Writes.DeleteBoulderDifficultyKeepsValid` | tickle/models.py:14-19 | an allowed boulder-grade delete leaves no dangling reference |
| `Writes.DeleteRouteDifficultyKeepsValid` | tickle/models.py:42-46 | an allowed route-grade delete leaves no dangling reference |
| `Writes.DeleteBoulderKeepsValid` | tickle/models.py:97-124 | an allowed boulder delete leaves no dangling reference |
| `Writes.DeleteRouteKeepsValid` | tickle/models.py:37-125 | an allowed route delete, with its cascade, leaves no dangling reference |
| `Writes.DeleteUserKeepsValid` | tickle/models.py:93-121 | a user delete, with its cascades, leaves the store valid |
| `Writes.DeleteRouteKeepsOtherRoutes` | tickle/models.py:37-68 | deleting a route leaves every other route's pitches, in the same order, and so its `difficulty`, unchanged |
| `Scenarios.HardestOfThreePitches` | tickle/models.py:66-68 | for a route whose pitches are graded with orders 2, 5 and 3, `difficulty` is the grade of order 5 |
| `Scenarios.BoulderAttemptScenario` | tickle/models.py:93-109 | a padded fall on an unrated boulder with no route is saved as the only attempt; the same attempt naming a route too is rejected |
| `Scenarios.TodoStrFailsForRouteWithoutPitches` | tickle/models.py:66-71 | a to-do on a route without pitches satisfies every constraint, yet its string form raises |

## Left out

- tickle/views.py: generic list and detail views with no logic of their own; the `Area` model they name is not part of this model.
- The class patching `Q.__bases__ += (QQ,)`: only the boolean meaning of the combined condition is modelled. The lookups are `isnull` tests, which are never SQL NULL, so two-valued logic is exact for these constraints.
- Field validation done by the framework: `max_length`, `URLField`, `choices`, and the 0..32767 range of `PositiveSmallIntegerField`; orders are unbounded naturals and choices are datatypes. Field defaults are not modelled either (`prior_knowledge` defaulting to true, tickle/models.py:100, and `mountainproject` left blank, tickle/models.py:20 and 63): every record is built with all its fields given.
- Exact string formatting: the string forms are modelled as their parts (`Label`, `TodoLabel`); `Pitch.__str__` and the grades' `__str__` (the grade name) are used only through those parts.
- `Todo`'s `ordering = ('route__name',)`: where NULL route names sort and how names collate depends on the database backend.
- Ties: the database returns rows with equal sort keys in an unspecified order. The model's sort keeps equal keys in table order (it is stable), and `HardestPitch` takes the earliest of equally ranked pitches; the contracts promise only what the source does.
- Creating or updating boulders, routes, pitches, grades and users, and deleting pitches, attempts and to-dos: ordinary administrative writes with no rule of their own beyond the foreign keys; only the attempt and to-do saves, where the check constraint applies, and the deletes whose policies the source declares are modelled.
- The `User` model and authentication: users are represented by their keys only.
- Transactions, isolation and concurrent requests.
- `DifficultyOfRoute`, `RouteStr`, `TodoStr`: require a valid store (foreign keys that resolve); a dangling key, which would raise `DoesNotExist` when followed, cannot occur because the database enforces foreign keys.
