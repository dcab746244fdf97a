/** Properties of the task viewset that relate several requests, or hold
    for every request. */
module TaskProperties {
  import opened Rest
  import opened Permissions
  import opened TaskModel
  import opened TaskSerializers
  import opened Database
  import opened TaskViews

  /** Completing a task twice: the second call succeeds with the same
      response and leaves the database as the first call left it. */
  lemma CompleteIdempotent(db: Db, actor: Actor, id: TaskId)
    requires Valid(db) && Known(db, actor)
    requires CompleteTask(db, actor, id).0.Ok?
    ensures var (r1, db1) := CompleteTask(db, actor, id);
            Known(db1, actor) && CompleteTask(db1, actor, id) == (r1, db1)
  {
    var (r1, db1) := CompleteTask(db, actor, id);
    var t := db.tasks[id].(isCompleted := true);
    assert db1.tasks[id] == t;
    assert db1.tasks[id := db1.tasks[id].(isCompleted := true)] == db1.tasks;
  }

  /** `destroy` removes exactly its target; destroying it again is "not
      found" and changes nothing. */
  lemma DestroyTwice(db: Db, actor: Actor, id: TaskId)
    requires Valid(db) && Known(db, actor)
    requires DestroyTask(db, actor, id).0.Ok?
    ensures var (_, db1) := DestroyTask(db, actor, id);
            id !in db1.tasks && db1.tasks.Keys == db.tasks.Keys - {id} &&
            Known(db1, actor) && DestroyTask(db1, actor, id) == (Fail(NotFound), db1)
  {
  }

  /** A task of another user cannot be updated, partially updated,
      destroyed or completed: the lookup runs inside the caller's queryset
      and reports "not found" before any ownership check, even for
      `partial_update` and `complete`, whose permission lists omit the
      ownership check. */
  lemma ForeignTaskNotFound(db: Db, a: UserId, b: UserId, id: TaskId, p: TaskPayload)
    requires Valid(db) && b in db.users
    requires id in db.tasks && db.tasks[id].user == Some(a) && a != b
    ensures ObjectOwner !in GetPermissions(Some(PartialUpdate))
    ensures ObjectOwner !in GetPermissions(Some(Complete))
    ensures UpdateTask(db, Authenticated(b), id, p) == (Fail(NotFound), db)
    ensures PartialUpdateTask(db, Authenticated(b), id, p) == (Fail(NotFound), db)
    ensures DestroyTask(db, Authenticated(b), id) == (Fail(NotFound), db)
    ensures CompleteTask(db, Authenticated(b), id) == (Fail(NotFound), db)
  {
  }

  /** What a request may do to the tables: leave users and tokens alone,
      leave every task the caller does not own exactly as it was, add tasks
      only for the caller, and keep the owner and creation date of every
      task that survives. */
  ghost predicate ConfinedTo(db: Db, db': Db, actor: Actor)
  {
    && db'.users == db.users && db'.byName == db.byName && db'.tokens == db.tokens
    && (forall id :: id in db.tasks && !IsObjectOwner(actor, db.tasks[id].user) ==>
          id in db'.tasks && db'.tasks[id] == db.tasks[id])
    && (forall id :: id in db'.tasks && id !in db.tasks ==> IsObjectOwner(actor, db'.tasks[id].user))
    && (forall id :: id in db'.tasks && id in db.tasks ==>
          db'.tasks[id].user == db.tasks[id].user && db'.tasks[id].date == db.tasks[id].date)
  }

  lemma CreateConfined(db: Db, actor: Actor, p: TaskPayload, today: Date)
    requires Valid(db) && Known(db, actor)
    ensures ConfinedTo(db, CreateTask(db, actor, p, today).1, actor)
  {
    var (r, db') := CreateTask(db, actor, p, today);
    if r.Ok? {
      assert db'.tasks.Keys == db.tasks.Keys + {db.nextTaskId};
    }
  }

  lemma UpdateConfined(db: Db, actor: Actor, id: TaskId, p: TaskPayload)
    requires Valid(db) && Known(db, actor)
    ensures ConfinedTo(db, UpdateTask(db, actor, id, p).1, actor)
  {
    var (r, db') := UpdateTask(db, actor, id, p);
    if r.Ok? {
      var t := db.tasks[id].(title := Strip(p.title.value));
      assert db'.tasks == db.tasks[id := t];
      assert t.user == db.tasks[id].user && t.date == db.tasks[id].date;
    }
  }

  lemma PartialUpdateConfined(db: Db, actor: Actor, id: TaskId, p: TaskPayload)
    requires Valid(db) && Known(db, actor)
    ensures ConfinedTo(db, PartialUpdateTask(db, actor, id, p).1, actor)
  {
  }

  lemma DestroyConfined(db: Db, actor: Actor, id: TaskId)
    requires Valid(db) && Known(db, actor)
    ensures ConfinedTo(db, DestroyTask(db, actor, id).1, actor)
  {
  }

  lemma CompleteConfined(db: Db, actor: Actor, id: TaskId)
    requires Valid(db) && Known(db, actor)
    ensures ConfinedTo(db, CompleteTask(db, actor, id).1, actor)
  {
  }

  /** A title holding a null character is refused on the title field, and
      nothing is created. */
  lemma {:induction false} NullTitleRefused(db: Db, u: UserId, p: TaskPayload, today: Date)
    requires Valid(db) && u in db.users
    requires p.title.Some? && '\U{0}' in p.title.value
    ensures var (r, db') := CreateTask(db, Authenticated(u), p, today);
            db' == db && r.Fail? && r.error.FieldErrors? && "title" in r.error.fields
  {
    StripKeepsNull(p.title.value);
    assert "title" in ModelErrors(p, false);
  }

  /** The class-level checks come first: a request whose action's
      permission list (the default list when no action is set) refuses the
      caller is answered with the caller's denial and changes nothing. */
  lemma HandleChecksPermissionsFirst(db: Db, actor: Actor, req: TaskRequest, today: Date)
    requires Valid(db) && Known(db, actor)
    ensures CheckPermissions(GetPermissions(ActionOf(req)), actor).Some? ==>
              Handle(db, actor, req, today) == (Fail(Denial(actor)), db)
  {
  }

  /** Every request to the task viewset, whatever its outcome, is confined
      to the caller's own tasks. */
  lemma HandleConfinedToCaller(db: Db, actor: Actor, req: TaskRequest, today: Date)
    requires Valid(db) && Known(db, actor)
    ensures ConfinedTo(db, Handle(db, actor, req, today).1, actor)
  {
    match req
    case GetList =>
    case PostList(p) => CreateConfined(db, actor, p, today);
    case GetDetail(id) =>
    case PutDetail(id, p) => UpdateConfined(db, actor, id, p);
    case PatchDetail(id, p) => PartialUpdateConfined(db, actor, id, p);
    case DeleteDetail(id) => DestroyConfined(db, actor, id);
    case PostComplete(id) => CompleteConfined(db, actor, id);
  }

  /** The lifecycle of one task: created by its owner (201, title trimmed,
      not completed, dated today), completed (200, flag set), destroyed (204), and then no
      longer found. */
  lemma TaskLifecycle(db: Db, u: UserId, title: string, today: Date)
    requires Valid(db) && u in db.users
    requires 0 < |Strip(title)| <= TitleMaxLength && '\U{0}' !in Strip(title)
    ensures var p := TaskPayload(None, Some(title), None, None, None);
            var id := db.nextTaskId;
            var (r1, db1) := CreateTask(db, Authenticated(u), p, today);
            r1.Ok? && r1.status == HTTP_201_CREATED &&
            id in db1.tasks && db1.tasks[id] == Task(Some(u), Strip(title), false, today, None) &&
            var (r2, db2) := CompleteTask(db1, Authenticated(u), id);
            r2.Ok? && r2.status == HTTP_200_OK && r2.body.Object? &&
            r2.body.data["is_completed"] == Flag(true) &&
            var (r3, db3) := DestroyTask(db2, Authenticated(u), id);
            r3 == Ok(HTTP_204_NO_CONTENT, NoContent) &&
            DestroyTask(db3, Authenticated(u), id).0 == Fail(NotFound)
  {
    var p := TaskPayload(None, Some(title), None, None, None);
    var id := db.nextTaskId;
    var a := Authenticated(u);
    assert ModelErrors(p, false) == {};
    var (r1, db1) := CreateTask(db, a, p, today);
    assert db1.tasks[id] == Task(Some(u), Strip(title), false, today, None);
    var (r2, db2) := CompleteTask(db1, a, id);
    assert r2.Ok?;
    var (r3, db3) := DestroyTask(db2, a, id);
    assert r3.Ok?;
  }
}
