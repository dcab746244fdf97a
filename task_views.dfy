/** `TaskViewSet` of api/tasks/views.py: which serializer and which
    permissions each action gets, the caller-scoped queryset, and every
    routed request as a function from the database before to the response
    and the database after. The framework's dispatch order is written out:
    class-level permissions, then the lookup of the target inside the
    caller's queryset, then object-level permissions, then validation, then
    the write. */
module TaskViews {
  import opened Rest
  import opened Permissions
  import opened TaskModel
  import opened TaskSerializers
  import opened Database

  /** The action names the viewset's code mentions. */
  datatype TaskAction = List | Create | Retrieve | Update | PartialUpdate | Destroy | Complete

  /** A request as the router delivers it: an HTTP method on the list
      route, on a task's detail route, or on its `complete/` route. */
  datatype TaskRequest =
    | GetList
    | PostList(payload: TaskPayload)
    | GetDetail(id: TaskId)
    | PutDetail(id: TaskId, payload: TaskPayload)
    | PatchDetail(id: TaskId, payload: TaskPayload)
    | DeleteDetail(id: TaskId)
    | PostComplete(id: TaskId)

  /** `self.action`. The viewset mixes in create, list, update and destroy
      and adds `complete`, but not retrieve, so a GET on a detail route maps
      to no handler and the action is left unset. */
  function ActionOf(req: TaskRequest): (a: Option<TaskAction>)
    ensures a.None? <==> req.GetDetail?
    ensures a != Some(Retrieve)
  {
    match req
    case GetList => Some(List)
    case PostList(_) => Some(Create)
    case GetDetail(_) => None
    case PutDetail(_, _) => Some(Update)
    case PatchDetail(_, _) => Some(PartialUpdate)
    case DeleteDetail(_) => Some(Destroy)
    case PostComplete(_) => Some(Complete)
  }

  /** `get_serializer_class`: the title-only serializer for `update` and the
      full one for every other action, `partial_update` included. */
  function GetSerializerClass(action: Option<TaskAction>): (s: Serializer)
    ensures s == TaskUpdateSerializer <==> action == Some(Update)
  {
    if action == Some(Update) then TaskUpdateSerializer else TaskModelSerializer
  }

  /** `get_permissions`: authentication always, and task ownership for
      retrieve, update, list and destroy only; `create`, `partial_update`,
      `complete` and an unset action get authentication alone. */
  function GetPermissions(action: Option<TaskAction>): (ps: seq<Permission>)
    ensures IsAuthenticated in ps
    ensures forall p :: p in ps ==> p == IsAuthenticated || p == ObjectOwner
    ensures ObjectOwner in ps <==>
              action == Some(Retrieve) || action == Some(Update) ||
              action == Some(List) || action == Some(Destroy)
  {
    if action in {Some(Retrieve), Some(Update), Some(List), Some(Destroy)}
    then [IsAuthenticated, ObjectOwner]
    else [IsAuthenticated]
  }

  /** `get_queryset`: the tasks whose `user` is the requesting user, and no
      others. Only reached once `IsAuthenticated` has passed. */
  function GetQueryset(tasks: map<TaskId, Task>, actor: Actor): (qs: map<TaskId, Task>)
    requires actor.Authenticated?
    ensures forall id :: id in qs <==> id in tasks && tasks[id].user == Some(actor.id)
    ensures forall id :: id in qs ==> qs[id] == tasks[id]
  {
    map id | id in tasks && tasks[id].user == Some(actor.id) :: tasks[id]
  }

  /** `get_object`: the id is looked up in the caller's queryset, so a task
      of someone else is not found; the object-level checks then run on
      what was found, and always pass for its owner. */
  function GetObject(tasks: map<TaskId, Task>, actor: Actor, action: Option<TaskAction>, id: TaskId)
    : (r: Result<Task>)
    requires actor.Authenticated?
    ensures r.Success? <==> id in tasks && tasks[id].user == Some(actor.id)
    ensures r.Success? ==> r.value == tasks[id]
    ensures r.Failure? ==> r.error == NotFound
  {
    var qs := GetQueryset(tasks, actor);
    if id !in qs then Failure(NotFound)
    else
      match CheckObjectPermissions(GetPermissions(action), actor, TaskObject(qs[id].user))
      case Some(e) => Failure(e)
      case None => Success(qs[id])
  }

  /** The full rendering of a task, owner shown by username. */
  function Full(db: Db, t: Task): map<string, Value>
    requires t.user.Some? && t.user.value in db.users
  {
    Represent(TaskModelSerializer, t, OwnerName(db, t))
  }

  /** `list`: the caller's tasks, each rendered in full. Ownership is in the
      permission list but is an object-level check, which listing never
      runs; the queryset alone confines the rows. */
  function ListTasks(db: Db, actor: Actor): (out: (Response, Db))
    requires Valid(db) && Known(db, actor)
    ensures out.1 == db
    ensures out.0.Ok? <==> actor.Authenticated?
    ensures actor.Anonymous? ==> out.0 == Fail(NotAuthenticated)
    ensures out.0.Ok? ==>
              out.0.status == HTTP_200_OK && out.0.body.Rows? &&
              (forall id :: id in out.0.body.rows <==> id in db.tasks && db.tasks[id].user == Some(actor.id)) &&
              (forall id :: id in out.0.body.rows ==> out.0.body.rows[id] == Full(db, db.tasks[id]))
  {
    match CheckPermissions(GetPermissions(Some(List)), actor)
    case Some(e) => (Fail(e), db)
    case None =>
      var qs := GetQueryset(db.tasks, actor);
      var s := GetSerializerClass(Some(List));
      (Ok(HTTP_200_OK, Rows(map id | id in qs :: Represent(s, qs[id], OwnerName(db, qs[id])))), db)
  }

  /** `create`: a valid payload makes a new task owned by the caller, with
      the completion flag as given (false by default), today's date and no
      limit date. A submitted `user` is a string, which the owner column
      cannot take: the request fails before anything is written. */
  function CreateTask(db: Db, actor: Actor, p: TaskPayload, today: Date): (out: (Response, Db))
    requires Valid(db) && Known(db, actor)
    ensures Valid(out.1)
    ensures !out.0.Ok? ==> out.1 == db
    ensures out.0.Ok? <==> actor.Authenticated? && ModelErrors(p, false) == {} && p.user.None?
    ensures actor.Anonymous? ==> out.0 == Fail(NotAuthenticated)
    ensures actor.Authenticated? && ModelErrors(p, false) != {} ==>
              out.0 == Fail(FieldErrors(ModelErrors(p, false)))
    ensures actor.Authenticated? && ModelErrors(p, false) == {} && p.user.Some? ==>
              out.0 == Fail(ServerError)
    ensures out.0.Ok? ==>
              var t := NewTask(actor.id, Strip(p.title.value), p.isCompleted, today);
              db.nextTaskId !in db.tasks &&
              out.1 == db.(tasks := db.tasks[db.nextTaskId := t], nextTaskId := db.nextTaskId + 1) &&
              out.0 == Ok(HTTP_201_CREATED, Object(Full(db, t)))
  {
    match CheckPermissions(GetPermissions(Some(Create)), actor)
    case Some(e) => (Fail(e), db)
    case None =>
      var errs := ModelErrors(p, false);
      if errs != {} then (Fail(FieldErrors(errs)), db)
      else if p.user.Some? then (Fail(ServerError), db)
      else
        var t := NewTask(actor.id, Strip(p.title.value), p.isCompleted, today);
        var (_, db') := Database.InsertTask(db, t);
        (Ok(HTTP_201_CREATED, Object(Represent(GetSerializerClass(Some(Create)), t, OwnerName(db', t)))), db')
  }

  /** A GET on a detail route: no handler is mapped, so the action is unset,
      the permissions are the default list and the method is refused. */
  function RetrieveTask(db: Db, actor: Actor, id: TaskId): (out: (Response, Db))
    ensures out.1 == db
    ensures out.0 == if actor.Anonymous? then Fail(NotAuthenticated) else Fail(MethodNotAllowed)
  {
    (Fail(RefuseMethod(GetPermissions(None), actor)), db)
  }

  /** `update` (PUT) with the title-only serializer: the caller's task gets
      the submitted title, trimmed, and keeps everything else, and the response is
      the title alone. */
  function UpdateTask(db: Db, actor: Actor, id: TaskId, p: TaskPayload): (out: (Response, Db))
    requires Valid(db) && Known(db, actor)
    ensures Valid(out.1)
    ensures !out.0.Ok? ==> out.1 == db
    ensures out.0.Ok? <==>
              actor.Authenticated? && id in db.tasks && db.tasks[id].user == Some(actor.id) &&
              UpdateErrors(p) == {}
    ensures out.0.Ok? ==>
              out.1 == db.(tasks := db.tasks[id := db.tasks[id].(title := Strip(p.title.value))]) &&
              out.0 == Ok(HTTP_200_OK, Object(map["title" := Text(Strip(p.title.value))]))
    ensures actor.Anonymous? ==> out.0 == Fail(NotAuthenticated)
    ensures actor.Authenticated? && !(id in db.tasks && db.tasks[id].user == Some(actor.id)) ==>
              out.0 == Fail(NotFound)
    ensures actor.Authenticated? && id in db.tasks && db.tasks[id].user == Some(actor.id) &&
            UpdateErrors(p) != {} ==>
              out.0 == Fail(FieldErrors(UpdateErrors(p)))
  {
    var action := Some(Update);
    match CheckPermissions(GetPermissions(action), actor)
    case Some(e) => (Fail(e), db)
    case None =>
      match GetObject(db.tasks, actor, action, id)
      case Failure(e) => (Fail(e), db)
      case Success(task) =>
        var errs := UpdateErrors(p);
        if errs != {} then (Fail(FieldErrors(errs)), db)
        else
          var t := task.(title := Strip(p.title.value));
          (Ok(HTTP_200_OK, Object(Represent(GetSerializerClass(action), t, OwnerName(db, t)))),
           Database.SaveTask(db, id, t))
  }

  /** `partial_update` (PATCH) with the full serializer: only
      authentication is checked, but the lookup is still confined to the
      caller's tasks. Submitted title and completion flag are set; a
      submitted `user` fails as in `create`. */
  function PartialUpdateTask(db: Db, actor: Actor, id: TaskId, p: TaskPayload): (out: (Response, Db))
    requires Valid(db) && Known(db, actor)
    ensures Valid(out.1)
    ensures !out.0.Ok? ==> out.1 == db
    ensures out.0.Ok? <==>
              actor.Authenticated? && id in db.tasks && db.tasks[id].user == Some(actor.id) &&
              ModelErrors(p, true) == {} && p.user.None?
    ensures out.0.Ok? ==>
              var t := Apply(db.tasks[id], p);
              out.1 == db.(tasks := db.tasks[id := t]) &&
              out.0 == Ok(HTTP_200_OK, Object(Full(db, t)))
    ensures actor.Anonymous? ==> out.0 == Fail(NotAuthenticated)
    ensures actor.Authenticated? && !(id in db.tasks && db.tasks[id].user == Some(actor.id)) ==>
              out.0 == Fail(NotFound)
    ensures actor.Authenticated? && id in db.tasks && db.tasks[id].user == Some(actor.id) ==>
              (ModelErrors(p, true) != {} ==> out.0 == Fail(FieldErrors(ModelErrors(p, true)))) &&
              (ModelErrors(p, true) == {} && p.user.Some? ==> out.0 == Fail(ServerError))
  {
    var action := Some(PartialUpdate);
    match CheckPermissions(GetPermissions(action), actor)
    case Some(e) => (Fail(e), db)
    case None =>
      match GetObject(db.tasks, actor, action, id)
      case Failure(e) => (Fail(e), db)
      case Success(task) =>
        var errs := ModelErrors(p, true);
        if errs != {} then (Fail(FieldErrors(errs)), db)
        else if p.user.Some? then (Fail(ServerError), db)
        else
          var t := Apply(task, p);
          (Ok(HTTP_200_OK, Object(Represent(GetSerializerClass(action), t, OwnerName(db, t)))),
           Database.SaveTask(db, id, t))
  }

  /** `destroy`: the caller's task is deleted and nothing else is. */
  function DestroyTask(db: Db, actor: Actor, id: TaskId): (out: (Response, Db))
    requires Valid(db) && Known(db, actor)
    ensures Valid(out.1)
    ensures !out.0.Ok? ==> out.1 == db
    ensures out.0.Ok? <==> actor.Authenticated? && id in db.tasks && db.tasks[id].user == Some(actor.id)
    ensures out.0.Ok? ==>
              out.0 == Ok(HTTP_204_NO_CONTENT, NoContent) &&
              out.1 == db.(tasks := db.tasks - {id})
    ensures actor.Authenticated? && !out.0.Ok? ==> out.0 == Fail(NotFound)
  {
    var action := Some(Destroy);
    match CheckPermissions(GetPermissions(action), actor)
    case Some(e) => (Fail(e), db)
    case None =>
      match GetObject(db.tasks, actor, action, id)
      case Failure(e) => (Fail(e), db)
      case Success(_) => (Ok(HTTP_204_NO_CONTENT, NoContent), Database.DeleteTask(db, id))
  }

  /** `complete`: the caller's task gets its completion flag set and keeps
      every other field; the response is its full rendering. */
  function CompleteTask(db: Db, actor: Actor, id: TaskId): (out: (Response, Db))
    requires Valid(db) && Known(db, actor)
    ensures Valid(out.1)
    ensures !out.0.Ok? ==> out.1 == db
    ensures out.0.Ok? <==> actor.Authenticated? && id in db.tasks && db.tasks[id].user == Some(actor.id)
    ensures out.0.Ok? ==>
              var t := db.tasks[id].(isCompleted := true);
              out.1 == db.(tasks := db.tasks[id := t]) &&
              out.0 == Ok(HTTP_200_OK, Object(Full(db, t)))
    ensures actor.Authenticated? && !out.0.Ok? ==> out.0 == Fail(NotFound)
  {
    var action := Some(Complete);
    match CheckPermissions(GetPermissions(action), actor)
    case Some(e) => (Fail(e), db)
    case None =>
      match GetObject(db.tasks, actor, action, id)
      case Failure(e) => (Fail(e), db)
      case Success(task) =>
        var t := task.(isCompleted := true);
        (Ok(HTTP_200_OK, Object(Represent(TaskModelSerializer, t, OwnerName(db, t)))),
         Database.SaveTask(db, id, t))
  }

  /** One request to the viewset. */
  function Handle(db: Db, actor: Actor, req: TaskRequest, today: Date): (out: (Response, Db))
    requires Valid(db) && Known(db, actor)
    ensures Valid(out.1)
    ensures !out.0.Ok? ==> out.1 == db
  {
    match req
    case GetList => ListTasks(db, actor)
    case PostList(p) => CreateTask(db, actor, p, today)
    case GetDetail(id) => RetrieveTask(db, actor, id)
    case PutDetail(id, p) => UpdateTask(db, actor, id, p)
    case PatchDetail(id, p) => PartialUpdateTask(db, actor, id, p)
    case DeleteDetail(id) => DestroyTask(db, actor, id)
    case PostComplete(id) => CompleteTask(db, actor, id)
  }
}
