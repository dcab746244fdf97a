/** Properties of the user viewset that relate several requests, or hold
    for every request. */
module UserProperties {
  import opened Rest
  import opened Permissions
  import opened Database
  import opened UserSerializers
  import opened UserViews

  /** Sign-up never compares the confirmation with the password: swapping
      one acceptable confirmation (trimmed length in bounds, no null
      character) for any other gives the same response and the same
      database. */
  lemma ConfirmationNeverCompared(db: Db, actor: Actor, req: SignUpRequest, c: string)
    requires Valid(db)
    requires req.passwordConfirmation.Some?
    requires PasswordMinLength <= |Strip(req.passwordConfirmation.value)| <= PasswordMaxLength
    requires '\U{0}' !in Strip(req.passwordConfirmation.value)
    requires PasswordMinLength <= |Strip(c)| <= PasswordMaxLength && '\U{0}' !in Strip(c)
    ensures SignUp(db, actor, req.(passwordConfirmation := Some(c))) == SignUp(db, actor, req)
  {
    var req' := req.(passwordConfirmation := Some(c));
    var e := SignUpErrors(db.byName, req);
    var e' := SignUpErrors(db.byName, req');
    assert "username" in e' <==> "username" in e;
    assert "password" in e' <==> "password" in e;
    assert "password_confirmation" in e' <==> "password_confirmation" in e;
    assert e' == e;
  }

  /** A concrete sign-up whose confirmation differs from its password, and
      which is accepted all the same: the account stores the password, the
      confirmation is gone. */
  lemma MismatchedConfirmationAccepted()
    ensures var req := SignUpRequest(Some("alice"), Some("secret"), Some("public"));
            var (r, db') := SignUp(Empty(), Anonymous, req);
            r == Ok(HTTP_201_CREATED, Object(map["username" := Text("alice")])) &&
            db'.users == map[0 := Account("alice", "secret")]
  {
    var req := SignUpRequest(Some("alice"), Some("secret"), Some("public"));
    assert Trimmed("alice") && Trimmed("secret") && Trimmed("public");
    assert SignUpErrors(Empty().byName, req) == {};
  }

  /** A sign-up username whose trimmed form is outside 3 to 20 characters
      is refused, on the username field, however the rest of the request
      looks. */
  lemma SignUpUsernameBounds(db: Db, actor: Actor, req: SignUpRequest)
    requires Valid(db) && req.username.Some?
    requires |Strip(req.username.value)| < UsernameMinLength || UsernameMaxLength < |Strip(req.username.value)|
    ensures SignUp(db, actor, req).1 == db
    ensures SignUp(db, actor, req).0.Fail? && SignUp(db, actor, req).0.error.FieldErrors?
    ensures "username" in SignUp(db, actor, req).0.error.fields
  {
    assert "username" in SignUpErrors(db.byName, req);
  }

  /** A username holding a null character is refused on the username
      field, and no account is created. */
  lemma {:induction false} NullUsernameRefused(db: Db, actor: Actor, req: SignUpRequest)
    requires Valid(db) && req.username.Some? && '\U{0}' in req.username.value
    ensures SignUp(db, actor, req).1 == db
    ensures SignUp(db, actor, req).0.Fail? && SignUp(db, actor, req).0.error.FieldErrors?
    ensures "username" in SignUp(db, actor, req).0.error.fields
  {
    StripKeepsNull(req.username.value);
    assert "username" in SignUpErrors(db.byName, req);
  }

  /** The class-level checks come first: a request whose action's
      permission list (the default list when no action is set) refuses the
      caller is answered with the caller's denial and changes nothing. */
  lemma HandleChecksPermissionsFirst(db: Db, actor: Actor, req: UserRequest)
    requires Valid(db) && Known(db, actor)
    requires req.PostLogin? ==> req.freshKey !in db.tokens.Values
    ensures CheckPermissions(GetPermissions(ActionOf(req)), actor).Some? ==>
              Handle(db, actor, req) == (Fail(Denial(actor)), db)
  {
  }

  /** A second login by the same account, with whatever fresh key the
      framework would offer, answers exactly as the first did and changes
      nothing: the token is created once per account. */
  lemma LoginTokenStable(db: Db, a1: Actor, a2: Actor, req: LoginRequest, k1: Token, k2: Token)
    requires Valid(db) && k1 !in db.tokens.Values
    requires LogIn(db, a1, req, k1).0.Ok?
    ensures var (r1, db1) := LogIn(db, a1, req, k1);
            k2 !in db1.tokens.Values ==> LogIn(db1, a2, req, k2) == (r1, db1)
  {
    var (r1, db1) := LogIn(db, a1, req, k1);
    var name, password := Strip(req.username.value), Strip(req.password.value);
    var user := Authenticate(db, name, password).value;
    assert db1.users == db.users && db1.byName == db.byName;
    assert Authenticate(db1, name, password) == Some(user);
    assert user in db1.tokens;
    assert db1.tokens[user := db1.tokens[user]] == db1.tokens;
  }

  /** Logins under two usernames that differ once trimmed never receive
      the same token: tokens belong to one account each. */
  lemma LoginTokensDistinct(db: Db, req1: LoginRequest, req2: LoginRequest, k: Token)
    requires Valid(db) && k !in db.tokens.Values
    requires LogIn(db, Anonymous, req1, k).0.Ok?
    requires req2.username.Some? && Strip(req1.username.value) != Strip(req2.username.value)
    ensures var (r1, db1) := LogIn(db, Anonymous, req1, k);
            forall k2 :: k2 !in db1.tokens.Values && LogIn(db1, Anonymous, req2, k2).0.Ok? ==>
              LogIn(db1, Anonymous, req2, k2).0.body.data["access_token"] !=
              r1.body.data["access_token"]
  {
    var (r1, db1) := LogIn(db, Anonymous, req1, k);
    var u1 := Authenticate(db, Strip(req1.username.value), Strip(req1.password.value)).value;
    forall k2 | k2 !in db1.tokens.Values && LogIn(db1, Anonymous, req2, k2).0.Ok?
      ensures LogIn(db1, Anonymous, req2, k2).0.body.data["access_token"] != r1.body.data["access_token"]
    {
      var u2 := Authenticate(db1, Strip(req2.username.value), Strip(req2.password.value)).value;
      assert db1.users[u2].username == Strip(req2.username.value);
      assert db1.users[u1].username == Strip(req1.username.value);
      assert u1 != u2;
      assert u1 in db1.tokens;
      if u2 in db1.tokens {
        assert db1.tokens[u1] != db1.tokens[u2];
      } else {
        assert db1.tokens[u1] in db1.tokens.Values;
      }
    }
  }

  /** `partial_update` checks only authentication and the lookup is by
      username among all accounts, so any signed-in user can rename any
      other account (to the trimmed name); the same request as a PUT is
      refused. */
  lemma PartialUpdateRenamesAnyAccount(db: Db, a: UserId, b: UserId, name: string)
    requires Valid(db) && a in db.users && b in db.users && a != b
    requires 0 < |Strip(name)| <= ModelUsernameMaxLength && Strip(name) !in db.byName
    requires '\U{0}' !in Strip(name)
    ensures var target := db.users[a].username;
            var p := UserPayload(Some(name), None);
            var (r, db') := UpdateWith(db, Authenticated(b), PartialUpdate, target, p);
            r == Ok(HTTP_200_OK, Object(map["username" := Text(Strip(name))])) &&
            db'.users[a] == Account(Strip(name), db.users[a].password) &&
            UpdateWith(db, Authenticated(b), Update, target, p) == (Fail(PermissionDenied), db)
  {
    var target := db.users[a].username;
    assert target in db.byName && db.byName[target] == a;
    assert UpdateErrors(db.byName, a, UserPayload(Some(name), None), true) == {};
  }

  /** The lookup is not scoped to the caller: another user's account is
      found and then refused as forbidden, not reported missing. */
  lemma ForeignAccountForbidden(db: Db, a: UserId, b: UserId, p: UserPayload)
    requires Valid(db) && a in db.users && b in db.users && a != b
    ensures var target := db.users[a].username;
            UpdateWith(db, Authenticated(b), Update, target, p) == (Fail(PermissionDenied), db) &&
            DestroyAccount(db, Authenticated(b), target) == (Fail(PermissionDenied), db)
  {
    var target := db.users[a].username;
    assert target in db.byName && db.byName[target] == a;
  }

  /** Deleting one's account deletes exactly one's own tasks and token,
      frees the username, and the old credentials no longer log in. */
  lemma DestroyAccountCascade(db: Db, u: UserId, k: Token)
    requires Valid(db) && u in db.users
    ensures var acc := db.users[u];
            var (r, db') := DestroyAccount(db, Authenticated(u), acc.username);
            r == Ok(HTTP_204_NO_CONTENT, NoContent) &&
            u !in db'.users && u !in db'.tokens && acc.username !in db'.byName &&
            (forall id :: id in db'.tasks <==> id in db.tasks && db.tasks[id].user != Some(u)) &&
            (k !in db'.tokens.Values ==>
              LogIn(db', Anonymous, LoginRequest(Some(acc.username), Some(acc.password)), k).0.Fail?)
  {
    var acc := db.users[u];
    assert acc.username in db.byName && db.byName[acc.username] == u;
    var db' := DeleteUser(db, u);
    assert Authenticate(db', acc.username, acc.password).None?;
  }

  /** What a request to the user viewset may do to the task table: leave
      every task the caller does not own exactly as it was, and add none. */
  ghost predicate SparesOthersTasks(db: Db, db': Db, actor: Actor)
  {
    && (forall id :: id in db.tasks && !IsObjectOwner(actor, db.tasks[id].user) ==>
          id in db'.tasks && db'.tasks[id] == db.tasks[id])
    && (forall id :: id in db'.tasks ==> id in db.tasks && db'.tasks[id] == db.tasks[id])
  }

  /** No request to the user viewset, whatever its outcome, touches a task
      of anyone but the caller, and none changes a task. */
  lemma HandleSparesOthersTasks(db: Db, actor: Actor, req: UserRequest)
    requires Valid(db) && Known(db, actor)
    requires req.PostLogin? ==> req.freshKey !in db.tokens.Values
    ensures SparesOthersTasks(db, Handle(db, actor, req).1, actor)
  {
    match req
    case DeleteAccount(name) =>
      var (r, db') := DestroyAccount(db, actor, name);
      if r.Ok? {
        assert db' == DeleteUser(db, actor.id);
      }
    case _ =>
  }

  /** Sign up, log in, ask who one is: the account is created under the
      trimmed username (201, the username alone), the login with the same
      credentials, surrounding whitespace and all, answers 200 with the
      username nested and a new token, and `current` names the new
      account. */
  lemma SignUpLogInCurrent(db: Db, name: string, password: string, k: Token)
    requires Valid(db) && Strip(name) !in db.byName && k !in db.tokens.Values
    requires UsernameMinLength <= |Strip(name)| <= UsernameMaxLength
    requires PasswordMinLength <= |Strip(password)| <= PasswordMaxLength
    requires '\U{0}' !in Strip(name) && '\U{0}' !in Strip(password)
    ensures var u := db.nextUserId;
            var (r1, db1) := SignUp(db, Anonymous, SignUpRequest(Some(name), Some(password), Some(password)));
            r1 == Ok(HTTP_201_CREATED, Object(map["username" := Text(Strip(name))])) &&
            var (r2, db2) := LogIn(db1, Anonymous, LoginRequest(Some(name), Some(password)), k);
            r2 == Ok(HTTP_200_OK, Object(map["username" := Record(map["username" := Text(Strip(name))]),
                                             "access_token" := Text(k)])) &&
            db2.tokens == db.tokens[u := k] &&
            CurrentUser(db2, Authenticated(u)).0 == Ok(HTTP_200_OK, Object(map["username" := Text(Strip(name))]))
  {
    var u := db.nextUserId;
    var stored, secret := Strip(name), Strip(password);
    var req := SignUpRequest(Some(name), Some(password), Some(password));
    assert SignUpErrors(db.byName, req) == {};
    var (r1, db1) := SignUp(db, Anonymous, req);
    assert u !in db1.tokens by {
      assert u !in db.users;
    }
    var login := LoginRequest(Some(name), Some(password));
    assert LoginErrors(login) == {};
    assert db1.users[u] == Account(stored, secret);
    assert stored in db1.byName && db1.byName[stored] == u;
    assert Authenticate(db1, stored, secret) == Some(u);
  }
}
