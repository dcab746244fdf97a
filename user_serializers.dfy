/** The user serializers of api/users/serializers.py: the outward rendering
    of an account, sign-up validation and creation, and login validation
    and token issue. */
module UserSerializers {
  import opened Rest
  import opened Database

  /** Bounds of `UserSignUpSerializer`. */
  const UsernameMinLength: nat := 3
  const UsernameMaxLength: nat := 20
  const PasswordMinLength: nat := 5
  const PasswordMaxLength: nat := 64

  /** Bounds of `UserLoginSerializer`. */
  const LoginUsernameMaxLength: nat := 20
  const LoginPasswordMaxLength: nat := 64

  /** `max_length` of the `username` column of the framework's user model,
      which `UserModelSerializer` inherits for updates. */
  const ModelUsernameMaxLength: nat := 150

  /** The message `validate` raises when authentication fails. */
  const IncorrectCredentials: string := "Incorrect credentials."

  /** `UserModelSerializer(user).data`: the username and nothing else, so
      the credential is never rendered. */
  function Represent(a: Account): (data: map<string, Value>)
    ensures data.Keys == {"username"} && data["username"] == Text(a.username)
    ensures "password" !in data
  {
    map["username" := Text(a.username)]
  }

  datatype SignUpRequest = SignUpRequest(
    username: Option<string>,
    password: Option<string>,
    passwordConfirmation: Option<string>)

  /** Validated sign-up data: each field as trimmed by its character
      field. */
  datatype SignUpData = SignUpData(username: string, password: string, passwordConfirmation: string)

  /** Field validation of `UserSignUpSerializer`: all three fields are
      required and trimmed; the trimmed username holds 3 to 20 characters
      and is not in use (the unique validator sees the trimmed value); the
      trimmed password and confirmation hold 5 to 64 characters each. No
      field may hold a null character. Nothing compares the two. */
  function SignUpErrors(byName: map<string, UserId>, req: SignUpRequest): (errs: set<string>)
    ensures errs <= {"username", "password", "password_confirmation"}
    ensures "username" !in errs <==>
              req.username.Some? && Strip(req.username.value) !in byName &&
              UsernameMinLength <= |Strip(req.username.value)| <= UsernameMaxLength &&
              '\U{0}' !in Strip(req.username.value)
    ensures "password" !in errs <==>
              req.password.Some? && PasswordMinLength <= |Strip(req.password.value)| <= PasswordMaxLength &&
              '\U{0}' !in Strip(req.password.value)
    ensures "password_confirmation" !in errs <==>
              req.passwordConfirmation.Some? &&
              PasswordMinLength <= |Strip(req.passwordConfirmation.value)| <= PasswordMaxLength &&
              '\U{0}' !in Strip(req.passwordConfirmation.value)
  {
    var taken := if req.username.Some? && Strip(req.username.value) in byName then {"username"} else {};
    var user := CharFieldErrors("username", req.username, true, UsernameMinLength, UsernameMaxLength) + taken;
    var password := CharFieldErrors("password", req.password, true, PasswordMinLength, PasswordMaxLength);
    var confirmation := CharFieldErrors("password_confirmation", req.passwordConfirmation, true,
                                        PasswordMinLength, PasswordMaxLength);
    assert user <= {"username"} && password <= {"password"} && confirmation <= {"password_confirmation"};
    user + password + confirmation
  }

  /** `is_valid` of `UserSignUpSerializer`; the validated data are the
      trimmed values. */
  function ValidateSignUp(byName: map<string, UserId>, req: SignUpRequest): (r: Result<SignUpData>)
    ensures r.Success? <==> SignUpErrors(byName, req) == {}
    ensures r.Success? ==>
              r.value == SignUpData(Strip(req.username.value), Strip(req.password.value),
                                    Strip(req.passwordConfirmation.value)) &&
              r.value.username !in byName && Trimmed(r.value.username)
    ensures r.Failure? ==> r.error == FieldErrors(SignUpErrors(byName, req))
  {
    var errs := SignUpErrors(byName, req);
    if errs != {} then Failure(FieldErrors(errs))
    else Success(SignUpData(Strip(req.username.value), Strip(req.password.value),
                            Strip(req.passwordConfirmation.value)))
  }

  /** `UserSignUpSerializer.create`: the confirmation is popped, and the
      user is created from the username and password alone. */
  function CreateAccount(db: Db, data: SignUpData): (r: (UserId, Db))
    requires Valid(db) && data.username !in db.byName && Trimmed(data.username)
    ensures Valid(r.1)
    ensures r.0 !in db.users && r.1.users == db.users[r.0 := Account(data.username, data.password)]
    ensures r.1.tasks == db.tasks && r.1.tokens == db.tokens
  {
    InsertUser(db, data.username, data.password)
  }

  datatype LoginRequest = LoginRequest(username: Option<string>, password: Option<string>)

  /** Field validation of `UserLoginSerializer`: both fields required and
      not blank once trimmed, the trimmed username at most 20 characters,
      the trimmed password at most 64, and neither holding a null
      character. */
  function LoginErrors(req: LoginRequest): (errs: set<string>)
    ensures errs <= {"username", "password"}
    ensures "username" !in errs <==>
              req.username.Some? && 0 < |Strip(req.username.value)| <= LoginUsernameMaxLength &&
              '\U{0}' !in Strip(req.username.value)
    ensures "password" !in errs <==>
              req.password.Some? && 0 < |Strip(req.password.value)| <= LoginPasswordMaxLength &&
              '\U{0}' !in Strip(req.password.value)
    ensures errs == {} <==>
              req.username.Some? && 0 < |Strip(req.username.value)| <= LoginUsernameMaxLength &&
              '\U{0}' !in Strip(req.username.value) &&
              req.password.Some? && 0 < |Strip(req.password.value)| <= LoginPasswordMaxLength &&
              '\U{0}' !in Strip(req.password.value)
  {
    CharFieldErrors("username", req.username, true, 0, LoginUsernameMaxLength) +
    CharFieldErrors("password", req.password, true, 0, LoginPasswordMaxLength)
  }

  /** `authenticate(username=..., password=...)`: the account holding the
      username, when the password is its credential. */
  function Authenticate(db: Db, username: string, password: string): (r: Option<UserId>)
    requires Valid(db)
    ensures r.Some? <==> exists id :: id in db.users && db.users[id] == Account(username, password)
    ensures r.Some? ==> r.value in db.users && db.users[r.value] == Account(username, password)
  {
    if username in db.byName && db.users[db.byName[username]].password == password
    then Some(db.byName[username])
    else None
  }

  /** `is_valid` of `UserLoginSerializer`, whose `validate` authenticates
      with the trimmed values and fails with "Incorrect credentials." when
      no user comes back. */
  function ValidateLogin(db: Db, req: LoginRequest): (r: Result<UserId>)
    requires Valid(db)
    ensures r.Success? <==>
              LoginErrors(req) == {} &&
              Authenticate(db, Strip(req.username.value), Strip(req.password.value)).Some?
    ensures r.Success? ==>
              r.value in db.users &&
              db.users[r.value] == Account(Strip(req.username.value), Strip(req.password.value))
    ensures LoginErrors(req) != {} ==> r == Failure(FieldErrors(LoginErrors(req)))
    ensures LoginErrors(req) == {} && r.Failure? ==> r == Failure(NonFieldError(IncorrectCredentials))
  {
    var errs := LoginErrors(req);
    if errs != {} then Failure(FieldErrors(errs))
    else
      match Authenticate(db, Strip(req.username.value), Strip(req.password.value))
      case None => Failure(NonFieldError(IncorrectCredentials))
      case Some(user) => Success(user)
  }

  /** An account payload. `password` is no field of `UserModelSerializer`
      and is dropped. */
  datatype UserPayload = UserPayload(username: Option<string>, password: Option<string>)

  /** Field validation of `UserModelSerializer` on an update of account
      `id`: the username (required unless partial), once trimmed, holds 1
      to 150 characters, holds no null character and is not held by
      another account. */
  function UpdateErrors(byName: map<string, UserId>, id: UserId, p: UserPayload, partial: bool): (errs: set<string>)
    ensures errs <= {"username"}
    ensures errs == {} <==>
              (p.username.None? && partial) ||
              (p.username.Some? && 0 < |Strip(p.username.value)| <= ModelUsernameMaxLength &&
               '\U{0}' !in Strip(p.username.value) &&
               (Strip(p.username.value) in byName ==> byName[Strip(p.username.value)] == id))
  {
    var taken := if p.username.Some? && Strip(p.username.value) in byName && byName[Strip(p.username.value)] != id
                 then {"username"} else {};
    CharFieldErrors("username", p.username, !partial, 0, ModelUsernameMaxLength) + taken
  }
}
