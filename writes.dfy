/**
 * Writes to the store: saving an attempt or a to-do, which the database
 * checks against 'attempt_boulder_xor_route' or 'todo_boulder_xor_route'
 * and the foreign keys, and the deletes,
 * whose effect follows each foreign key's `on_delete` policy. A refused
 * write returns an error and no new store; the database is left as it was,
 * since the refusal comes before any row is touched.
 */
module Writes {
  import opened Wrappers
  import opened Tables
  import opened Models
  import opened Queries

  /** Every row except the one with key `id`. */
  function OtherThan<T>(id: Id): Row<T> -> bool
  {
    (r: Row<T>) => r.id != id
  }

  /** Pitches of every route but `route`. */
  function NotOnRoute(route: Id): Row<Pitch> -> bool
  {
    (p: Row<Pitch>) => p.val.route != route
  }

  // ---------------------------------------------------------------------
  // Saving attempts and to-dos

  /** `attempt.save()` with primary key `id`: an UPDATE of the row with that
      key, or an INSERT when there is none. The database rejects a row that
      breaks 'attempt_boulder_xor_route' or refers to a missing row. */
  function SaveAttempt(s: Store, id: Id, a: Attempt): (r: Result<Store, Error>)
    ensures r.Ok? <==> AttemptRefsOk(s, a) && AttemptBoulderXorRoute(a)
    ensures r.Err? ==> r.error == IntegrityError
    ensures r.Ok? ==> r.value == s.(attempts := r.value.attempts)
    ensures r.Ok? ==> forall x :: x in r.value.attempts <==> x == Row(id, a) || (x in s.attempts && x.id != id)
  {
    if AttemptRefsOk(s, a) && AttemptBoulderXorRoute(a) then
      Ok(s.(attempts := Where(s.attempts, OtherThan(id)) + [Row(id, a)]))
    else
      Err(IntegrityError)
  }

  /** `todo.save()`, as `SaveAttempt` but under 'todo_boulder_xor_route'. */
  function SaveTodo(s: Store, id: Id, t: Todo): (r: Result<Store, Error>)
    ensures r.Ok? <==> TodoRefsOk(s, t) && TodoBoulderXorRoute(t)
    ensures r.Err? ==> r.error == IntegrityError
    ensures r.Ok? ==> r.value == s.(todos := r.value.todos)
    ensures r.Ok? ==> forall x :: x in r.value.todos <==> x == Row(id, t) || (x in s.todos && x.id != id)
  {
    if TodoRefsOk(s, t) && TodoBoulderXorRoute(t) then
      Ok(s.(todos := Where(s.todos, OtherThan(id)) + [Row(id, t)]))
    else
      Err(IntegrityError)
  }

  lemma SaveAttemptKeepsValid(s: Store, id: Id, a: Attempt)
    requires Valid(s) && SaveAttempt(s, id, a).Ok?
    ensures Valid(SaveAttempt(s, id, a).value)
  {
  }

  lemma SaveTodoKeepsValid(s: Store, id: Id, t: Todo)
    requires Valid(s) && SaveTodo(s, id, t).Ok?
    ensures Valid(SaveTodo(s, id, t).value)
  {
  }

  // ---------------------------------------------------------------------
  // Deletes

  /** Deleting a boulder grade: PROTECTed by `Boulder.difficulty`. */
  function DeleteBoulderDifficulty(s: Store, id: Id): (r: Result<Store, Error>)
    ensures r.Err? <==> exists b :: b in s.boulders && b.val.difficulty == Some(id)
    ensures r.Err? ==> r.error == ProtectedError
    ensures r.Ok? ==> r.value == s.(boulderDifficulties := r.value.boulderDifficulties)
    ensures r.Ok? ==> forall d :: d in r.value.boulderDifficulties <==> d in s.boulderDifficulties && d.id != id
  {
    if exists b :: b in s.boulders && b.val.difficulty == Some(id) then Err(ProtectedError)
    else Ok(s.(boulderDifficulties := Where(s.boulderDifficulties, OtherThan(id))))
  }

  /** Deleting a route grade: PROTECTed by `Pitch.difficulty`. */
  function DeleteRouteDifficulty(s: Store, id: Id): (r: Result<Store, Error>)
    ensures r.Err? <==> exists p :: p in s.pitches && p.val.difficulty == id
    ensures r.Err? ==> r.error == ProtectedError
    ensures r.Ok? ==> r.value == s.(routeDifficulties := r.value.routeDifficulties)
    ensures r.Ok? ==> forall d :: d in r.value.routeDifficulties <==> d in s.routeDifficulties && d.id != id
  {
    if exists p :: p in s.pitches && p.val.difficulty == id then Err(ProtectedError)
    else Ok(s.(routeDifficulties := Where(s.routeDifficulties, OtherThan(id))))
  }

  /** Deleting a boulder: PROTECTed by `Attempt.boulder` and `Todo.boulder`. */
  function DeleteBoulder(s: Store, id: Id): (r: Result<Store, Error>)
    ensures r.Err? <==>
              || (exists a :: a in s.attempts && a.val.boulder == Some(id))
              || (exists t :: t in s.todos && t.val.boulder == Some(id))
    ensures r.Err? ==> r.error == ProtectedError
    ensures r.Ok? ==> r.value == s.(boulders := r.value.boulders)
    ensures r.Ok? ==> forall b :: b in r.value.boulders <==> b in s.boulders && b.id != id
  {
    if (exists a :: a in s.attempts && a.val.boulder == Some(id))
       || (exists t :: t in s.todos && t.val.boulder == Some(id))
    then Err(ProtectedError)
    else Ok(s.(boulders := Where(s.boulders, OtherThan(id))))
  }

  /** Deleting a route: PROTECTed by `Attempt.route` and `Todo.route`; when
      allowed, its pitches go with it (CASCADE on `Pitch.route`). */
  function DeleteRoute(s: Store, id: Id): (r: Result<Store, Error>)
    ensures r.Err? <==>
              || (exists a :: a in s.attempts && a.val.route == Some(id))
              || (exists t :: t in s.todos && t.val.route == Some(id))
    ensures r.Err? ==> r.error == ProtectedError
    ensures r.Ok? ==> r.value == s.(routes := r.value.routes, pitches := r.value.pitches)
    ensures r.Ok? ==> forall x :: x in r.value.routes <==> x in s.routes && x.id != id
    ensures r.Ok? ==> forall p :: p in r.value.pitches <==> p in s.pitches && p.val.route != id
  {
    if (exists a :: a in s.attempts && a.val.route == Some(id))
       || (exists t :: t in s.todos && t.val.route == Some(id))
    then Err(ProtectedError)
    else Ok(s.(routes := Where(s.routes, OtherThan(id)), pitches := Where(s.pitches, NotOnRoute(id))))
  }

  /** Deleting a user: CASCADE on `Attempt.user` and `Todo.user`; never refused. */
  function DeleteUser(s: Store, user: Id): (r: Store)
    ensures r.users == s.users - {user}
    ensures r == s.(users := r.users, attempts := r.attempts, todos := r.todos)
    ensures forall a :: a in r.attempts <==> a in s.attempts && a.val.user != user
    ensures forall t :: t in r.todos <==> t in s.todos && t.val.user != user
  {
    s.(users := s.users - {user},
       attempts := Where(s.attempts, (a: Row<Attempt>) => a.val.user != user),
       todos := Where(s.todos, (t: Row<Todo>) => t.val.user != user))
  }

  // ---------------------------------------------------------------------
  // What the deletes preserve

  lemma DeleteBoulderDifficultyKeepsValid(s: Store, id: Id)
    requires Valid(s) && DeleteBoulderDifficulty(s, id).Ok?
    ensures Valid(DeleteBoulderDifficulty(s, id).value)
  {
  }

  lemma DeleteRouteDifficultyKeepsValid(s: Store, id: Id)
    requires Valid(s) && DeleteRouteDifficulty(s, id).Ok?
    ensures Valid(DeleteRouteDifficulty(s, id).value)
  {
  }

  lemma DeleteBoulderKeepsValid(s: Store, id: Id)
    requires Valid(s) && DeleteBoulder(s, id).Ok?
    ensures Valid(DeleteBoulder(s, id).value)
  {
  }

  lemma DeleteRouteKeepsValid(s: Store, id: Id)
    requires Valid(s) && DeleteRoute(s, id).Ok?
    ensures Valid(DeleteRoute(s, id).value)
  {
  }

  lemma DeleteUserKeepsValid(s: Store, user: Id)
    requires Valid(s)
    ensures Valid(DeleteUser(s, user))
  {
  }

  /** Deleting a route leaves every other route's pitches, in the same order,
      and therefore its derived difficulty, as they were. */
  lemma {:induction false} DeleteRouteKeepsOtherRoutes(s: Store, id: Id, other: Id)
    requires Valid(s) && DeleteRoute(s, id).Ok? && other != id
    ensures PitchesOf(DeleteRoute(s, id).value, other) == PitchesOf(s, other)
    ensures DifficultyOfRoute(DeleteRoute(s, id).value, other) == DifficultyOfRoute(s, other)
  {
    DeleteRouteKeepsValid(s, id);
    WhereWhere(s.pitches, NotOnRoute(id), OnRoute(other));
  }
}
