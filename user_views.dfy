/** `UserViewSet` of api/users/views.py: the permission list of each action,
    the lookup of a target account by username among all accounts, and every
    routed request as a function from the database before to the response
    and the database after, in the framework's dispatch order. */
module UserViews {
  import opened Rest
  import opened Permissions
  import opened Database
  import opened UserSerializers

  /** The action names the viewset's code mentions. */
  datatype UserAction = Signup | Login | Current | Retrieve | Update | PartialUpdate | Destroy

  /** A request as the router delivers it. The detail routes name their
      target by username. The token key a login would store, if the caller
      has none yet, is chosen by the framework and passed in. */
  datatype UserRequest =
    | PostSignup(signup: SignUpRequest)
    | PostLogin(login: LoginRequest, freshKey: Token)
    | GetCurrent
    | GetAccount(username: string)
    | PutAccount(username: string, payload: UserPayload)
    | PatchAccount(username: string, payload: UserPayload)
    | DeleteAccount(username: string)

  /** `self.action`. The viewset mixes in update and destroy and adds
      `signup`, `login` and `current`, but not retrieve, so a GET on a
      detail route leaves the action unset. */
  function ActionOf(req: UserRequest): (a: Option<UserAction>)
    ensures a.None? <==> req.GetAccount?
    ensures a != Some(Retrieve)
  {
    match req
    case PostSignup(_) => Some(Signup)
    case PostLogin(_, _) => Some(Login)
    case GetCurrent => Some(Current)
    case GetAccount(_) => None
    case PutAccount(_, _) => Some(Update)
    case PatchAccount(_, _) => Some(PartialUpdate)
    case DeleteAccount(_) => Some(Destroy)
  }

  /** `get_permissions`: anyone may sign up or log in; retrieve, update,
      current and destroy need authentication and account ownership; every
      other action, `partial_update` among them, needs authentication
      alone. */
  function GetPermissions(action: Option<UserAction>): (ps: seq<Permission>)
    ensures ps == [AllowAny] <==> action == Some(Signup) || action == Some(Login)
    ensures IsAuthenticated in ps <==> !(action == Some(Signup) || action == Some(Login))
    ensures AccountOwner in ps <==>
              action == Some(Retrieve) || action == Some(Update) ||
              action == Some(Current) || action == Some(Destroy)
    ensures ObjectOwner !in ps
  {
    if action in {Some(Signup), Some(Login)} then [AllowAny]
    else if action in {Some(Retrieve), Some(Update), Some(Current), Some(Destroy)}
    then [IsAuthenticated, AccountOwner]
    else [IsAuthenticated]
  }

  /** `get_object`: the username is looked up among all accounts, then the
      object-level checks of the action run on the account found. */
  function GetObject(db: Db, actor: Actor, action: Option<UserAction>, username: string): (r: Result<UserId>)
    requires Valid(db)
    ensures username !in db.byName ==> r == Failure(NotFound)
    ensures r.Success? <==>
              username in db.byName &&
              (AccountOwner in GetPermissions(action) ==> actor == Authenticated(db.byName[username]))
    ensures r.Success? ==> r.value == db.byName[username] && r.value in db.users
    ensures username in db.byName && r.Failure? ==> r.error == Denial(actor)
  {
    if username !in db.byName then Failure(NotFound)
    else
      var id := db.byName[username];
      match CheckObjectPermissions(GetPermissions(action), actor, AccountObject(id))
      case Some(e) => Failure(e)
      case None => Success(id)
  }

  /** `signup`: anyone may call it. A valid request creates an account from
      the trimmed username and password and answers 201 with the username
      alone. */
  function SignUp(db: Db, actor: Actor, req: SignUpRequest): (out: (Response, Db))
    requires Valid(db)
    ensures Valid(out.1)
    ensures !out.0.Ok? ==> out.1 == db
    ensures out.0.Ok? <==> SignUpErrors(db.byName, req) == {}
    ensures !out.0.Ok? ==> out.0 == Fail(FieldErrors(SignUpErrors(db.byName, req)))
    ensures out.0.Ok? ==>
              var id := db.nextUserId;
              id !in db.users &&
              var name := Strip(req.username.value);
              out.1 == db.(users := db.users[id := Account(name, Strip(req.password.value))],
                           byName := db.byName[name := id],
                           nextUserId := id + 1) &&
              out.0 == Ok(HTTP_201_CREATED, Object(map["username" := Text(name)]))
  {
    match CheckPermissions(GetPermissions(Some(Signup)), actor)
    case Some(e) => (Fail(e), db)
    case None =>
      match ValidateSignUp(db.byName, req)
      case Failure(e) => (Fail(e), db)
      case Success(data) =>
        var (id, db') := CreateAccount(db, data);
        (Ok(HTTP_201_CREATED, Object(Represent(db'.users[id]))), db')
  }

  /** `login`: anyone may call it. Valid credentials answer 200 with the
      username projection nested under "username" and the caller's token
      under "access_token"; the token is created only if the account has
      none. Credentials are matched as trimmed; bad ones are a non-field
      error. */
  function LogIn(db: Db, actor: Actor, req: LoginRequest, freshKey: Token): (out: (Response, Db))
    requires Valid(db) && freshKey !in db.tokens.Values
    ensures Valid(out.1)
    ensures !out.0.Ok? ==> out.1 == db
    ensures out.0.Ok? <==>
              LoginErrors(req) == {} &&
              Authenticate(db, Strip(req.username.value), Strip(req.password.value)).Some?
    ensures LoginErrors(req) != {} ==> out.0 == Fail(FieldErrors(LoginErrors(req)))
    ensures LoginErrors(req) == {} && !out.0.Ok? ==> out.0 == Fail(NonFieldError(IncorrectCredentials))
    ensures out.0.Ok? ==>
              var user := Authenticate(db, Strip(req.username.value), Strip(req.password.value)).value;
              var key := if user in db.tokens then db.tokens[user] else freshKey;
              out.1 == db.(tokens := db.tokens[user := key]) &&
              out.0 == Ok(HTTP_200_OK, Object(map[
                "username" := Record(map["username" := Text(Strip(req.username.value))]),
                "access_token" := Text(key)]))
  {
    match CheckPermissions(GetPermissions(Some(Login)), actor)
    case Some(e) => (Fail(e), db)
    case None =>
      match ValidateLogin(db, req)
      case Failure(e) => (Fail(e), db)
      case Success(user) =>
        var (key, db') := GetOrCreateToken(db, user, freshKey);
        (Ok(HTTP_200_OK, Object(map["username" := Record(Represent(db'.users[user])),
                                    "access_token" := Text(key)])), db')
  }

  /** `current`: the caller's own username. Account ownership is in the
      list but is an object-level check, which `current` never runs. */
  function CurrentUser(db: Db, actor: Actor): (out: (Response, Db))
    requires Valid(db) && Known(db, actor)
    ensures out.1 == db
    ensures out.0.Ok? <==> actor.Authenticated?
    ensures actor.Anonymous? ==> out.0 == Fail(NotAuthenticated)
    ensures out.0.Ok? ==>
              out.0 == Ok(HTTP_200_OK, Object(map["username" := Text(db.users[actor.id].username)]))
  {
    match CheckPermissions(GetPermissions(Some(Current)), actor)
    case Some(e) => (Fail(e), db)
    case None => (Ok(HTTP_200_OK, Object(map["username" := Text(db.users[actor.id].username)])), db)
  }

  /** A GET on a detail route: no handler is mapped, so the action is unset,
      the permissions are the default list and the method is refused. */
  function RetrieveAccount(db: Db, actor: Actor, username: string): (out: (Response, Db))
    ensures out.1 == db
    ensures out.0 == if actor.Anonymous? then Fail(NotAuthenticated) else Fail(MethodNotAllowed)
  {
    (Fail(RefuseMethod(GetPermissions(None), actor)), db)
  }

  /** `update` (PUT) and `partial_update` (PATCH) share the framework's
      update handler and differ in their action name (so in their
      permission lists) and in whether the username may be left out. The
      account found gets the submitted username, trimmed; the answer is
      the username it has afterwards. */
  function UpdateWith(db: Db, actor: Actor, action: UserAction, username: string, p: UserPayload)
    : (out: (Response, Db))
    requires Valid(db) && Known(db, actor)
    requires action == Update || action == PartialUpdate
    ensures Valid(out.1)
    ensures !out.0.Ok? ==> out.1 == db
    ensures out.0.Ok? <==>
              actor.Authenticated? && username in db.byName &&
              (action == Update ==> actor.id == db.byName[username]) &&
              UpdateErrors(db.byName, db.byName[username], p, action == PartialUpdate) == {}
    ensures out.0.Ok? ==>
              var id := db.byName[username];
              var name := if p.username.Some? then Strip(p.username.value) else username;
              out.1 == RenameUser(db, id, name) &&
              out.0 == Ok(HTTP_200_OK, Object(map["username" := Text(name)]))
    ensures actor.Anonymous? ==> out.0 == Fail(NotAuthenticated)
    ensures actor.Authenticated? && username !in db.byName ==> out.0 == Fail(NotFound)
    ensures actor.Authenticated? && username in db.byName && action == Update &&
            db.byName[username] != actor.id ==>
              out.0 == Fail(PermissionDenied)
    ensures actor.Authenticated? && username in db.byName &&
            (action == Update ==> db.byName[username] == actor.id) &&
            UpdateErrors(db.byName, db.byName[username], p, action == PartialUpdate) != {} ==>
              out.0 == Fail(FieldErrors(UpdateErrors(db.byName, db.byName[username], p, action == PartialUpdate)))
  {
    var partial := action == PartialUpdate;
    match CheckPermissions(GetPermissions(Some(action)), actor)
    case Some(e) => (Fail(e), db)
    case None =>
      match GetObject(db, actor, Some(action), username)
      case Failure(e) => (Fail(e), db)
      case Success(id) =>
        var errs := UpdateErrors(db.byName, id, p, partial);
        if errs != {} then (Fail(FieldErrors(errs)), db)
        else
          var name := if p.username.Some? then Strip(p.username.value) else db.users[id].username;
          var db' := RenameUser(db, id, name);
          (Ok(HTTP_200_OK, Object(Represent(db'.users[id]))), db')
  }

  /** `destroy`: the account owner's account is deleted, and with it every
      task it owns and its token. */
  function DestroyAccount(db: Db, actor: Actor, username: string): (out: (Response, Db))
    requires Valid(db) && Known(db, actor)
    ensures Valid(out.1)
    ensures !out.0.Ok? ==> out.1 == db
    ensures out.0.Ok? <==>
              actor.Authenticated? && username in db.byName && db.byName[username] == actor.id
    ensures out.0.Ok? ==> out.0 == Ok(HTTP_204_NO_CONTENT, NoContent) && out.1 == DeleteUser(db, actor.id)
    ensures actor.Anonymous? ==> out.0 == Fail(NotAuthenticated)
    ensures actor.Authenticated? && username !in db.byName ==> out.0 == Fail(NotFound)
    ensures actor.Authenticated? && username in db.byName && db.byName[username] != actor.id ==>
              out.0 == Fail(PermissionDenied)
  {
    var action := Some(Destroy);
    match CheckPermissions(GetPermissions(action), actor)
    case Some(e) => (Fail(e), db)
    case None =>
      match GetObject(db, actor, action, username)
      case Failure(e) => (Fail(e), db)
      case Success(id) => (Ok(HTTP_204_NO_CONTENT, NoContent), DeleteUser(db, id))
  }

  /** One request to the viewset. */
  function Handle(db: Db, actor: Actor, req: UserRequest): (out: (Response, Db))
    requires Valid(db) && Known(db, actor)
    requires req.PostLogin? ==> req.freshKey !in db.tokens.Values
    ensures Valid(out.1)
    ensures !out.0.Ok? ==> out.1 == db
  {
    match req
    case PostSignup(s) => SignUp(db, actor, s)
    case PostLogin(l, key) => LogIn(db, actor, l, key)
    case GetCurrent => CurrentUser(db, actor)
    case GetAccount(name) => RetrieveAccount(db, actor, name)
    case PutAccount(name, p) => UpdateWith(db, actor, Update, name, p)
    case PatchAccount(name, p) => UpdateWith(db, actor, PartialUpdate, name, p)
    case DeleteAccount(name) => DestroyAccount(db, actor, name)
  }
}
