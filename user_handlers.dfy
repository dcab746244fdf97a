/** The handlers of `UserViewSet` run against the mutable store: each one
    checks, looks up, validates and then creates, renames or deletes an
    account or fetches a token, and is proved to answer and to leave the
    tables exactly as the matching function of `UserViews` says. */
module UserHandlers {
  import opened Rest
  import opened Permissions
  import opened UserSerializers
  import opened Storage
  import Database
  import UserViews

  /** `signup` */
  method SignUp(store: Store, actor: Actor, req: SignUpRequest) returns (resp: Response)
    requires store.Valid()
    modifies store
    ensures store.Valid()
    ensures (resp, store.Snapshot()) == UserViews.SignUp(old(store.Snapshot()), actor, req)
  {
    var denied := CheckPermissions(UserViews.GetPermissions(Some(UserViews.Signup)), actor);
    if denied.Some? {
      return Fail(denied.value);
    }
    var valid := ValidateSignUp(store.byName, req);
    if valid.Failure? {
      return Fail(valid.error);
    }
    var data := valid.value;
    var id := store.CreateUser(data.username, data.password);
    resp := Ok(HTTP_201_CREATED, Object(Represent(store.users[id])));
  }

  /** `login`: authenticates by username and credential, then fetches the
      account's token or stores `freshKey` as its new one. */
  method LogIn(store: Store, actor: Actor, req: LoginRequest, freshKey: Token) returns (resp: Response)
    requires store.Valid() && freshKey !in store.tokens.Values
    modifies store
    ensures store.Valid()
    ensures (resp, store.Snapshot()) == UserViews.LogIn(old(store.Snapshot()), actor, req, freshKey)
  {
    var denied := CheckPermissions(UserViews.GetPermissions(Some(UserViews.Login)), actor);
    if denied.Some? {
      return Fail(denied.value);
    }
    var errs := LoginErrors(req);
    if errs != {} {
      return Fail(FieldErrors(errs));
    }
    var username, password := Strip(req.username.value), Strip(req.password.value);
    if username !in store.byName || store.users[store.byName[username]].password != password {
      return Fail(NonFieldError(IncorrectCredentials));
    }
    var user := store.byName[username];
    var key := store.GetOrCreateToken(user, freshKey);
    resp := Ok(HTTP_200_OK, Object(map["username" := Record(Represent(store.users[user])),
                                       "access_token" := Text(key)]));
  }

  /** `current`: reads the caller's account and changes nothing. */
  method Current(store: Store, actor: Actor) returns (resp: Response)
    requires store.Valid() && Database.Known(store.Snapshot(), actor)
    ensures resp == UserViews.CurrentUser(store.Snapshot(), actor).0
  {
    var denied := CheckPermissions(UserViews.GetPermissions(Some(UserViews.Current)), actor);
    if denied.Some? {
      return Fail(denied.value);
    }
    resp := Ok(HTTP_200_OK, Object(map["username" := Text(store.users[actor.id].username)]));
  }

  /** The update handler shared by `update` (PUT) and, with `partial` set,
      `partial_update` (PATCH). */
  method Update(store: Store, actor: Actor, username: string, p: UserPayload, partial: bool)
    returns (resp: Response)
    requires store.Valid() && Database.Known(store.Snapshot(), actor)
    modifies store
    ensures store.Valid()
    ensures var action := if partial then UserViews.PartialUpdate else UserViews.Update;
            (resp, store.Snapshot()) == UserViews.UpdateWith(old(store.Snapshot()), actor, action, username, p)
  {
    var action := if partial then UserViews.PartialUpdate else UserViews.Update;
    var perms := UserViews.GetPermissions(Some(action));
    var denied := CheckPermissions(perms, actor);
    if denied.Some? {
      return Fail(denied.value);
    }
    if username !in store.byName {
      return Fail(NotFound);
    }
    var id := store.byName[username];
    denied := CheckObjectPermissions(perms, actor, AccountObject(id));
    if denied.Some? {
      return Fail(denied.value);
    }
    var errs := UpdateErrors(store.byName, id, p, partial);
    if errs != {} {
      return Fail(FieldErrors(errs));
    }
    var name := if p.username.Some? then Strip(p.username.value) else store.users[id].username;
    store.RenameUser(id, name);
    resp := Ok(HTTP_200_OK, Object(Represent(store.users[id])));
  }

  /** `destroy`: deletes the account, and with it its tasks and token. */
  method Destroy(store: Store, actor: Actor, username: string) returns (resp: Response)
    requires store.Valid() && Database.Known(store.Snapshot(), actor)
    modifies store
    ensures store.Valid()
    ensures (resp, store.Snapshot()) == UserViews.DestroyAccount(old(store.Snapshot()), actor, username)
  {
    var perms := UserViews.GetPermissions(Some(UserViews.Destroy));
    var denied := CheckPermissions(perms, actor);
    if denied.Some? {
      return Fail(denied.value);
    }
    if username !in store.byName {
      return Fail(NotFound);
    }
    var id := store.byName[username];
    denied := CheckObjectPermissions(perms, actor, AccountObject(id));
    if denied.Some? {
      return Fail(denied.value);
    }
    store.DeleteUser(id);
    resp := Ok(HTTP_204_NO_CONTENT, NoContent);
  }

  /** A GET on a detail route, which has no handler: refused after the
      default permission check, and nothing is read. */
  method Retrieve(store: Store, actor: Actor, username: string) returns (resp: Response)
    ensures resp == UserViews.RetrieveAccount(store.Snapshot(), actor, username).0
  {
    resp := Fail(RefuseMethod(UserViews.GetPermissions(None), actor));
  }

  /** One routed request. */
  method Dispatch(store: Store, actor: Actor, req: UserViews.UserRequest) returns (resp: Response)
    requires store.Valid() && Database.Known(store.Snapshot(), actor)
    requires req.PostLogin? ==> req.freshKey !in store.tokens.Values
    modifies store
    ensures store.Valid()
    ensures (resp, store.Snapshot()) == UserViews.Handle(old(store.Snapshot()), actor, req)
  {
    match req
    case PostSignup(s) => resp := SignUp(store, actor, s);
    case PostLogin(l, key) => resp := LogIn(store, actor, l, key);
    case GetCurrent => resp := Current(store, actor);
    case GetAccount(username) => resp := Retrieve(store, actor, username);
    case PutAccount(name, p) => resp := Update(store, actor, name, p, false);
    case PatchAccount(name, p) => resp := Update(store, actor, name, p, true);
    case DeleteAccount(name) => resp := Destroy(store, actor, name);
  }
}
