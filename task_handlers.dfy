/** The handlers of `TaskViewSet` run against the mutable store: each one
    checks, fetches, changes the fetched task and saves it, and is proved to
    answer and to leave the tables exactly as the matching function of
    `TaskViews` says. */
module TaskHandlers {
  import opened Rest
  import opened Permissions
  import opened TaskModel
  import opened TaskSerializers
  import opened Storage
  import Database
  import TaskViews

  /** `list`: reads the caller's queryset and changes nothing. */
  method List(store: Store, actor: Actor) returns (resp: Response)
    requires store.Valid() && Database.Known(store.Snapshot(), actor)
    ensures resp == TaskViews.ListTasks(store.Snapshot(), actor).0
  {
    var action := Some(TaskViews.List);
    var denied := CheckPermissions(TaskViews.GetPermissions(action), actor);
    if denied.Some? {
      return Fail(denied.value);
    }
    var qs := TaskViews.GetQueryset(store.tasks, actor);
    var s := TaskViews.GetSerializerClass(action);
    var rows := map id | id in qs :: Represent(s, qs[id], store.users[qs[id].user.value].username);
    resp := Ok(HTTP_200_OK, Rows(rows));
    ghost var db := store.Snapshot();
    assert rows == map id | id in qs :: Represent(s, qs[id], Database.OwnerName(db, qs[id]));
  }

  /** `create` */
  method Create(store: Store, actor: Actor, p: TaskPayload, today: Date) returns (resp: Response)
    requires store.Valid() && Database.Known(store.Snapshot(), actor)
    modifies store
    ensures store.Valid()
    ensures (resp, store.Snapshot()) == TaskViews.CreateTask(old(store.Snapshot()), actor, p, today)
  {
    var action := Some(TaskViews.Create);
    var denied := CheckPermissions(TaskViews.GetPermissions(action), actor);
    if denied.Some? {
      return Fail(denied.value);
    }
    var errs := ModelErrors(p, false);
    if errs != {} {
      return Fail(FieldErrors(errs));
    }
    if p.user.Some? {
      return Fail(ServerError);
    }
    var task := NewTask(actor.id, Strip(p.title.value), p.isCompleted, today);
    var _ := store.CreateTask(task);
    var data := Represent(TaskViews.GetSerializerClass(action), task, store.users[actor.id].username);
    resp := Ok(HTTP_201_CREATED, Object(data));
  }

  /** `update` (PUT) */
  method Update(store: Store, actor: Actor, id: TaskId, p: TaskPayload) returns (resp: Response)
    requires store.Valid() && Database.Known(store.Snapshot(), actor)
    modifies store
    ensures store.Valid()
    ensures (resp, store.Snapshot()) == TaskViews.UpdateTask(old(store.Snapshot()), actor, id, p)
  {
    var action := Some(TaskViews.Update);
    var denied := CheckPermissions(TaskViews.GetPermissions(action), actor);
    if denied.Some? {
      return Fail(denied.value);
    }
    var found := TaskViews.GetObject(store.tasks, actor, action, id);
    if found.Failure? {
      return Fail(found.error);
    }
    var errs := UpdateErrors(p);
    if errs != {} {
      return Fail(FieldErrors(errs));
    }
    var task := found.value;
    task := task.(title := Strip(p.title.value));
    store.SaveTask(id, task);
    var data := Represent(TaskViews.GetSerializerClass(action), task, store.users[task.user.value].username);
    resp := Ok(HTTP_200_OK, Object(data));
  }

  /** `partial_update` (PATCH) */
  method PartialUpdate(store: Store, actor: Actor, id: TaskId, p: TaskPayload) returns (resp: Response)
    requires store.Valid() && Database.Known(store.Snapshot(), actor)
    modifies store
    ensures store.Valid()
    ensures (resp, store.Snapshot()) == TaskViews.PartialUpdateTask(old(store.Snapshot()), actor, id, p)
  {
    var action := Some(TaskViews.PartialUpdate);
    var denied := CheckPermissions(TaskViews.GetPermissions(action), actor);
    if denied.Some? {
      return Fail(denied.value);
    }
    var found := TaskViews.GetObject(store.tasks, actor, action, id);
    if found.Failure? {
      return Fail(found.error);
    }
    var errs := ModelErrors(p, true);
    if errs != {} {
      return Fail(FieldErrors(errs));
    }
    if p.user.Some? {
      return Fail(ServerError);
    }
    var task := Apply(found.value, p);
    store.SaveTask(id, task);
    var data := Represent(TaskViews.GetSerializerClass(action), task, store.users[task.user.value].username);
    resp := Ok(HTTP_200_OK, Object(data));
  }

  /** `destroy` */
  method Destroy(store: Store, actor: Actor, id: TaskId) returns (resp: Response)
    requires store.Valid() && Database.Known(store.Snapshot(), actor)
    modifies store
    ensures store.Valid()
    ensures (resp, store.Snapshot()) == TaskViews.DestroyTask(old(store.Snapshot()), actor, id)
  {
    var action := Some(TaskViews.Destroy);
    var denied := CheckPermissions(TaskViews.GetPermissions(action), actor);
    if denied.Some? {
      return Fail(denied.value);
    }
    var found := TaskViews.GetObject(store.tasks, actor, action, id);
    if found.Failure? {
      return Fail(found.error);
    }
    store.DeleteTask(id);
    resp := Ok(HTTP_204_NO_CONTENT, NoContent);
  }

  /** `complete`: sets the flag on the fetched task and saves it. */
  method Complete(store: Store, actor: Actor, id: TaskId) returns (resp: Response)
    requires store.Valid() && Database.Known(store.Snapshot(), actor)
    modifies store
    ensures store.Valid()
    ensures (resp, store.Snapshot()) == TaskViews.CompleteTask(old(store.Snapshot()), actor, id)
  {
    var action := Some(TaskViews.Complete);
    var denied := CheckPermissions(TaskViews.GetPermissions(action), actor);
    if denied.Some? {
      return Fail(denied.value);
    }
    var found := TaskViews.GetObject(store.tasks, actor, action, id);
    if found.Failure? {
      return Fail(found.error);
    }
    var task := found.value;
    task := task.(isCompleted := true);
    store.SaveTask(id, task);
    var data := Represent(TaskModelSerializer, task, store.users[task.user.value].username);
    resp := Ok(HTTP_200_OK, Object(data));
  }

  /** A GET on a detail route, which has no handler: refused after the
      default permission check, and nothing is read. */
  method Retrieve(store: Store, actor: Actor, id: TaskId) returns (resp: Response)
    ensures resp == TaskViews.RetrieveTask(store.Snapshot(), actor, id).0
  {
    resp := Fail(RefuseMethod(TaskViews.GetPermissions(None), actor));
  }

  /** One routed request. */
  method Dispatch(store: Store, actor: Actor, req: TaskViews.TaskRequest, today: Date) returns (resp: Response)
    requires store.Valid() && Database.Known(store.Snapshot(), actor)
    modifies store
    ensures store.Valid()
    ensures (resp, store.Snapshot()) == TaskViews.Handle(old(store.Snapshot()), actor, req, today)
  {
    match req
    case GetList => resp := List(store, actor);
    case PostList(p) => resp := Create(store, actor, p, today);
    case GetDetail(id) => resp := Retrieve(store, actor, id);
    case PutDetail(id, p) => resp := Update(store, actor, id, p);
    case PatchDetail(id, p) => resp := PartialUpdate(store, actor, id, p);
    case DeleteDetail(id) => resp := Destroy(store, actor, id);
    case PostComplete(id) => resp := Complete(store, actor, id);
  }
}
