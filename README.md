# challenge-invera: authorization and ownership, in Dafny

This project models the part of the challenge-invera task tracker that carries logic. That is the authorization and ownership layer of its two REST viewsets (`TaskViewSet` and `UserViewSet`), together with the user, token and task tables those viewsets guard.

The state is one value, `Database.Db`, holding:

- a user table with its unique username index;
- a token table with one token per user;
- a task table, in which each task has an owner, a title, a completion flag, a creation date and an optional limit date.

Every routed request is a function from the database before to the response and the database after (`TaskViews`, `UserViews`). These functions follow the REST framework's dispatch order:

1. class-level permission checks;
2. the lookup of the target;
3. object-level permission checks;
4. serializer validation;
5. the write.

The same handlers are also written imperatively against a mutable `Storage.Store`, whose fields the object-relational calls reassign (`TaskHandlers`, `UserHandlers`). Each such method is proved to produce exactly the response and the tables that the matching function describes.

Properties that relate several requests, or that hold for every request, are lemmas in `TaskProperties` and `UserProperties`.

Four inputs are parameters rather than computed values:

- The caller is an `Actor` (anonymous, or an authenticated user id). How the framework resolves a token header into a user is not part of the model.
- The current day of a task creation is the `today` argument.
- The key that a first login stores is the `freshKey` argument. Its randomness is replaced by the requirement that no other user already holds it.
- A stored password is compared by equality. This stands in for the hashing check that `authenticate` performs.

### Behaviour of the code worth knowing

The lemma named in each item shows the behaviour.

- **Account renames.** `partial_update` appears in neither owner list (api/tasks/views.py:53, api/users/views.py:31).
  - For tasks this is harmless. The lookup stays inside the caller's own tasks, so another user's task is "not found" (`TaskProperties.ForeignTaskNotFound`).
  - For accounts, the lookup is by username across all users. So any signed-in user can rename any other account with PATCH, while the same request sent as PUT is refused (`UserProperties.PartialUpdateRenamesAnyAccount`).
- **No retrieve.** The docstrings of both viewsets list retrieve among the actions they handle (api/tasks/views.py:23-25, api/users/views.py:19-21). Neither viewset mixes it in (api/tasks/views.py:18-22, api/users/views.py:16-18). A GET on a detail route has no handler: it runs the default permission list and is answered "method not allowed". The `'retrieve'` entries of both permission tables are never reached (`TaskViews.RetrieveTask`, `UserViews.RetrieveAccount`).
- **Password confirmation.** Nothing compares the password with its confirmation (api/users/serializers.py:35-42). Replacing one acceptable confirmation by any other changes nothing (`UserProperties.ConfirmationNeverCompared`). A concrete sign-up with a confirmation that differs from the password is accepted (`UserProperties.MismatchedConfirmationAccepted`).
- **Owner sent by the client.** The comment on the owner column says it is filled in automatically when a task is created (api/tasks/models.py:15-16). The serializer makes `user` a writable `CharField` whose default is the current user (api/tasks/serializers.py:14). A submitted `user` that passes the field checks (not blank, no null character) therefore reaches the owner column as a string, and the column refuses it. The request fails as a server error before anything is written (`TaskViews.CreateTask`, `TaskViews.PartialUpdateTask`).
- **Completion flag on create.** `is_completed` is a writable field of the full serializer (api/tasks/serializers.py:19). A client may therefore create a task that is already completed (`TaskModel.NewTask`, `TaskViews.CreateTask`).
- **Response for a wrong owner.** `create`, `partial_update` and `complete` check authentication only (api/tasks/views.py:53-56). For `partial_update` and `complete`, confinement to the caller's tasks comes from the queryset alone (api/tasks/views.py:36-41). The answer to a stranger is therefore "not found", not "permission denied".
- **Whitespace.** Every character field trims surrounding whitespace before its blank and length checks, and the trimmed value is what is stored, looked up and authenticated (`Rest.CharFieldErrors`). Every character field also refuses a value holding a null character (`TaskProperties.NullTitleRefused`, `UserProperties.NullUsernameRefused`). A username or password sent with padding signs up, and later logs in, as its trimmed form (`UserProperties.SignUpLogInCurrent`).

## Model

| member | source | states |
|---|---|---|
| Rest.Strip | api/users/serializers.py:28-36 | the trimmed value of a character field neither starts nor ends with whitespace, is no longer than the value received, and equals it when it had no surrounding whitespace; what it is exactly is `Rest.StripInfix` |
| Rest.StripInfix | api/users/serializers.py:28-36 | the trimmed value is a contiguous middle part of the value received, with only whitespace before it and after it |
| Rest.StripKeepsNull | api/users/serializers.py:28-36 | the trimmed value holds a null character iff the value received does |
| Rest.StripBlank | api/users/serializers.py:28-36 | a character field value trims to nothing exactly when every character of it is whitespace, which is the blank check |
| Rest.CharFieldErrors | api/users/serializers.py:28-36 | a character field is accepted iff it is absent and optional, or present and, once trimmed, non-blank, within its length bounds and free of null characters |
| Permissions.IsObjectOwner | api/utils/permissions.py:10-12 | the task check holds iff the task has an owner and the caller is that user; an anonymous caller and an ownerless task never match |
| Permissions.IsAccountOwner | api/utils/permissions.py:18-19 | the account check holds iff the caller is that account |
| Permissions.HasPermission | api/utils/permissions.py:7-19 | a class-level check fails iff it is `IsAuthenticated` and the caller is anonymous; both ownership classes keep the allowing default |
| Permissions.HasObjectPermission | api/utils/permissions.py:7-19 | `AllowAny` and `IsAuthenticated` always allow at object level; the task check allows exactly the task's owner and the account check exactly the account itself |
| Permissions.CheckPermissions | api/utils/permissions.py:7-19 | a permission list lets the request through iff every class-level check passes; only `IsAuthenticated` can refuse, since both ownership classes keep the allowing default; a refusal is "not authenticated" for an anonymous caller and "permission denied" otherwise |
| Permissions.CheckObjectPermissions | api/utils/permissions.py:10-19 | the object-level checks pass iff every permission in the list passes on the fetched object; the refusal follows the same rule as above |
| Permissions.ObjectOwnerSeparates | api/utils/permissions.py:10-12 | for distinct users A and B and a task owned by A, the task check allows A and denies B, the anonymous caller and an ownerless task |
| Permissions.AccountOwnerSeparates | api/utils/permissions.py:18-19 | for distinct users A and B, the account check on A's account allows A and denies B and the anonymous caller |
| Permissions.OwnerListAllowsOnlyOwner | api/utils/permissions.py:10-12 | whenever a list containing `IsObjectOwner` passes on a task, the caller is that task's owner |
| Permissions.AccountListAllowsOnlyOwner | api/utils/permissions.py:18-19 | whenever a list containing `IsAccountOwner` passes on an account, the caller is that account |
| Permissions.RefuseMethod | api/tasks/views.py:18-22 | a request with no handler is refused as "method not allowed" iff the class-level checks pass, and otherwise with the caller's denial |
| TaskModel.NewTask | api/tasks/models.py:12-30 | a created row has the given owner and title, the completion flag only when `true` was submitted (false by default), the creation day as its date, and no limit date |
| Database.InsertUser | api/users/serializers.py:41 | a new user gets a fresh key and enters the username index; the token and task tables are unchanged; the database invariants (unique and trimmed usernames, one token per user, owners exist, keys below counters) are kept |
| Database.RenameUser | api/users/views.py:16 | the account gets the new username, the index follows it, nothing else changes, and the invariants are kept |
| Database.DeleteUser | api/tasks/models.py:12-14 | the user, their token and exactly the tasks they own are removed; every other task is kept unchanged; the invariants are kept |
| Database.GetOrCreateToken | api/users/serializers.py:63-66 | an existing token is returned and nothing changes; otherwise the fresh key is stored for the user and returned; afterwards the user holds the returned key and tokens stay unique |
| Database.InsertTask | api/tasks/views.py:18 | the task is stored under a fresh key with an existing owner, and nothing else changes |
| Database.SaveTask | api/tasks/views.py:64 | the row under the key is replaced, its owner kept, and the invariants hold |
| Database.DeleteTask | api/tasks/views.py:21 | exactly the row under the key is removed |
| Storage.Store.CreateUser | api/users/serializers.py:41 | the store's new tables are those of `Database.InsertUser` on the old tables |
| Storage.Store.RenameUser | api/users/views.py:16 | the new tables are those of `Database.RenameUser` |
| Storage.Store.DeleteUser | api/tasks/models.py:12-14 | the new tables are those of `Database.DeleteUser`, the cascade included |
| Storage.Store.GetOrCreateToken | api/users/serializers.py:65 | the key returned and the new tables are those of `Database.GetOrCreateToken` |
| Storage.Store.CreateTask | api/tasks/views.py:18 | the new tables are those of `Database.InsertTask` |
| Storage.Store.SaveTask | api/tasks/views.py:64 | the new tables are those of `Database.SaveTask` |
| Storage.Store.DeleteTask | api/tasks/views.py:21 | the new tables are those of `Database.DeleteTask` |
| TaskSerializers.Represent | api/tasks/serializers.py:12-27 | a rendering holds exactly the serializer's declared fields, never `limit_date`; the full serializer shows user (by username), title, completion flag and date; the update serializer shows the title alone |
| TaskSerializers.ModelErrors | api/tasks/serializers.py:14-19 | a submitted `user` that is blank once trimmed or holds a null character is refused; the trimmed title must hold 1 to 45 characters and no null character, and the title may be absent only in a partial update |
| TaskSerializers.UpdateErrors | api/tasks/serializers.py:22-27 | the title-only serializer accepts exactly a present title of 1 to 45 characters once trimmed, holding no null character |
| TaskSerializers.Apply | api/tasks/views.py:20 | an update sets the submitted title (trimmed) and flag and keeps the owner, creation date and limit date |
| TaskViews.ActionOf | api/tasks/views.py:18-22 | the action is unset exactly for a GET on a detail route and is never `retrieve`; `TaskProperties.HandleChecksPermissionsFirst` ties it to `Handle` |
| TaskViews.GetSerializerClass | api/tasks/views.py:43-49 | the title-only serializer is chosen iff the action is `update` |
| TaskViews.GetPermissions | api/tasks/views.py:51-57 | authentication is always required; ownership is required iff the action is retrieve, update, list or destroy |
| TaskViews.GetQueryset | api/tasks/views.py:36-41 | a task is in the caller's queryset iff the caller owns it |
| TaskViews.GetObject | api/tasks/views.py:62 | a lookup succeeds iff the task exists and the caller owns it, and otherwise reports "not found" |
| TaskViews.ListTasks | api/tasks/views.py:19 | an authenticated caller gets exactly their own tasks, each fully rendered; an anonymous caller is refused; nothing changes |
| TaskViews.CreateTask | api/tasks/views.py:18 | creation succeeds iff the caller is authenticated, the payload is valid and names no `user`; the new task is the caller's, with the trimmed title, stored under a fresh key, and answered 201 with its full rendering; an anonymous caller is "not authenticated", an invalid payload gets exactly its field errors (400), and a valid payload naming a `user` is a server error (500); a failure changes nothing |
| TaskViews.RetrieveTask | api/tasks/views.py:18-22 | a GET on a detail route is "not authenticated" for an anonymous caller and "method not allowed" for anyone else |
| TaskViews.UpdateTask | api/tasks/views.py:20 | PUT succeeds iff the caller owns the task and the title is valid; only the title changes, to the trimmed title, and the answer is that title alone; an anonymous caller is "not authenticated", a stranger's task is "not found", and an invalid title on one's own task gets exactly its field errors |
| TaskViews.PartialUpdateTask | api/tasks/views.py:53 | PATCH succeeds iff the caller owns the task, the payload is valid and names no `user`; submitted fields are applied and the answer is the full rendering; an anonymous caller is "not authenticated", a stranger's task is "not found"; on one's own task an invalid payload gets exactly its field errors and a valid one naming a `user` is a server error |
| TaskViews.DestroyTask | api/tasks/views.py:21 | DELETE succeeds iff the caller owns the task, removes that task alone and answers 204 |
| TaskViews.CompleteTask | api/tasks/views.py:59-66 | completion succeeds iff the caller owns the task; only the flag is set, and the answer is the full rendering with status 200 |
| TaskViews.Handle | api/tasks/views.py:18-66 | every request keeps the database invariants, and a request that fails changes nothing |
| TaskProperties.CompleteIdempotent | api/tasks/views.py:59-66 | completing a task a second time gives the same answer and leaves the database as the first call left it |
| TaskProperties.DestroyTwice | api/tasks/tests.py:105-113 | after a successful delete the task is gone and nothing else is; deleting it again is "not found" and changes nothing |
| TaskProperties.ForeignTaskNotFound | api/tasks/views.py:36-41 | for A's task and another user B, B's update, partial update, destroy and complete are all "not found" and change nothing, although the lists for `partial_update` and `complete` omit the ownership check |
| TaskProperties.CreateConfined | api/tasks/views.py:18 | creation touches no user or token and no task of anyone else, and any task it adds belongs to the caller |
| TaskProperties.UpdateConfined | api/tasks/views.py:20 | an update touches only the caller's task and keeps its owner and date |
| TaskProperties.PartialUpdateConfined | api/tasks/views.py:53 | a partial update touches only the caller's task and keeps its owner and date |
| TaskProperties.DestroyConfined | api/tasks/views.py:21 | a delete removes at most a task of the caller's |
| TaskProperties.CompleteConfined | api/tasks/views.py:59-66 | completion touches only the caller's task and keeps its owner and date |
| TaskProperties.HandleConfinedToCaller | api/tasks/views.py:36-57 | no request to the task viewset, whatever its outcome, changes users, tokens or any other user's task, and new tasks always belong to the caller |
| TaskProperties.NullTitleRefused | api/tasks/serializers.py:12-19 | a task whose title holds a null character is refused on the title field and nothing is created |
| TaskProperties.HandleChecksPermissionsFirst | api/tasks/views.py:51-57 | a request whose action's permission list, the default list when no action is set, refuses the caller is answered with the caller's denial and changes nothing |
| TaskProperties.TaskLifecycle | api/tasks/tests.py:55-59 | created by the owner (201, title trimmed, not completed, dated today, no limit date), completed (200, flag set), deleted (204), then "not found" |
| TaskHandlers.List | api/tasks/views.py:36-41 | the imperative `list` answers as `TaskViews.ListTasks` |
| TaskHandlers.Create | api/tasks/views.py:18 | the imperative `create` answers and writes as `TaskViews.CreateTask` |
| TaskHandlers.Update | api/tasks/views.py:20 | the imperative `update` answers and writes as `TaskViews.UpdateTask` |
| TaskHandlers.PartialUpdate | api/tasks/views.py:53 | the imperative `partial_update` answers and writes as `TaskViews.PartialUpdateTask` |
| TaskHandlers.Destroy | api/tasks/views.py:21 | the imperative `destroy` answers and writes as `TaskViews.DestroyTask` |
| TaskHandlers.Complete | api/tasks/views.py:59-66 | the imperative `complete` answers and writes as `TaskViews.CompleteTask` |
| TaskHandlers.Retrieve | api/tasks/views.py:18-22 | the imperative GET on a detail route answers as `TaskViews.RetrieveTask` |
| TaskHandlers.Dispatch | api/tasks/views.py:18-22 | every routed request answers and writes as `TaskViews.Handle` |
| UserSerializers.Represent | api/users/serializers.py:14-20 | an account renders as its username alone, never its password |
| UserSerializers.SignUpErrors | api/users/serializers.py:28-36 | the username is accepted iff present and its trimmed form is 3 to 20 characters long, free of null characters and unused; the password and the confirmation are each accepted iff present, 5 to 64 characters long once trimmed and free of null characters |
| UserSerializers.ValidateSignUp | api/users/serializers.py:23-36 | sign-up data is valid iff there are no field errors, and is then exactly the three submitted values, trimmed, with an unused username |
| UserSerializers.CreateAccount | api/users/serializers.py:38-42 | the account is created from the username and password alone, under a fresh key, with tasks and tokens unchanged |
| UserSerializers.LoginErrors | api/users/serializers.py:50-51 | each field is blamed exactly when it is absent, blank once trimmed, too long once trimmed (username 20, password 64) or holds a null character; so login data is well-formed iff both fields are present and non-blank once trimmed, the trimmed username at most 20 characters and the trimmed password at most 64, neither holding a null character |
| UserSerializers.Authenticate | api/users/serializers.py:55 | a user comes back iff an account holds exactly that username and password |
| UserSerializers.ValidateLogin | api/users/serializers.py:53-61 | login validates iff the fields are well-formed and authentication with the trimmed values succeeds; a malformed request gives field errors; bad credentials give "Incorrect credentials." |
| UserSerializers.UpdateErrors | api/users/serializers.py:14-20 | an update is accepted iff the username is absent in a partial update, or its trimmed form is 1 to 150 characters long, free of null characters and held by no other account |
| UserViews.ActionOf | api/users/views.py:16-18 | the action is unset exactly for a GET on a detail route and is never `retrieve`; `UserProperties.HandleChecksPermissionsFirst` ties it to `Handle` |
| UserViews.GetPermissions | api/users/views.py:27-35 | signup and login allow anyone; every other action requires authentication; account ownership is required iff the action is retrieve, update, current or destroy, so not `partial_update` |
| UserViews.GetObject | api/users/views.py:24-25 | the target is found by username among all accounts; a missing username is "not found"; a found account passes iff the list has no account check or the caller is that account, and otherwise the failure is the caller's denial |
| UserViews.SignUp | api/users/views.py:37-44 | sign-up succeeds iff the request validates; the account stores the trimmed username and password and the answer is 201 with that username alone; a failure gives the field errors and changes nothing |
| UserViews.LogIn | api/users/views.py:46-56 | login succeeds iff the fields are well-formed and the trimmed credentials match; the answer is 200 with the username nested under "username" and the caller's token, created only if absent; malformed fields get exactly their field errors; well-formed but bad credentials are "Incorrect credentials."; a failure changes nothing |
| UserViews.CurrentUser | api/users/views.py:58-62 | an authenticated caller gets exactly their own username; an anonymous caller is refused; nothing changes |
| UserViews.RetrieveAccount | api/users/views.py:16-18 | a GET on a detail route is "not authenticated" for an anonymous caller and "method not allowed" for anyone else |
| UserViews.UpdateWith | api/users/views.py:16 | PUT and PATCH succeed iff the caller is authenticated, the username exists, the caller owns it (PUT only) and the payload validates; the account is renamed to the trimmed username and the answer is its new username; an anonymous caller is "not authenticated", a missing username is "not found", a PUT on another's account is "permission denied", and an invalid payload after the lookup gets exactly its field errors |
| UserViews.DestroyAccount | api/users/views.py:17 | DELETE succeeds iff the caller owns the named account, and then deletes it with its tasks and token and answers 204; an anonymous caller is "not authenticated", a missing username is "not found", and another user's account gives "permission denied" |
| UserViews.Handle | api/users/views.py:16-62 | every request keeps the database invariants, and a request that fails changes nothing |
| UserProperties.ConfirmationNeverCompared | api/users/serializers.py:35-42 | replacing one acceptable confirmation (in bounds once trimmed, no null character) by any other leaves the sign-up's answer and its effect unchanged |
| UserProperties.MismatchedConfirmationAccepted | api/users/serializers.py:35-42 | a sign-up whose confirmation differs from its password is answered 201, and the account stores the password |
| UserProperties.SignUpUsernameBounds | api/users/serializers.py:28-32 | a username whose trimmed form is shorter than 3 or longer than 20 characters is refused on the username field and changes nothing |
| UserProperties.NullUsernameRefused | api/users/serializers.py:28-32 | a sign-up whose username holds a null character is refused on the username field and creates nothing |
| UserProperties.HandleChecksPermissionsFirst | api/users/views.py:27-35 | a request whose action's permission list, the default list when no action is set, refuses the caller is answered with the caller's denial and changes nothing |
| UserProperties.LoginTokenStable | api/users/serializers.py:63-66 | a second login with the same credentials answers with the same token and changes nothing |
| UserProperties.LoginTokensDistinct | api/users/serializers.py:63-66 | logins under two usernames that differ once trimmed never receive the same token |
| UserProperties.PartialUpdateRenamesAnyAccount | api/users/views.py:31 | for distinct users A and B, B's PATCH renames A's account to the trimmed name and succeeds, while the same PUT is "permission denied" and changes nothing |
| UserProperties.ForeignAccountForbidden | api/users/views.py:24-25 | B's PUT or DELETE on A's account is "permission denied", not "not found", and changes nothing |
| UserProperties.DestroyAccountCascade | api/tasks/models.py:12-14 | deleting one's own account removes exactly one's own tasks and one's token, frees the username, and the old credentials no longer log in |
| UserProperties.HandleSparesOthersTasks | api/users/views.py:16-62 | no request to the user viewset adds or changes a task, or removes a task of anyone but the caller |
| UserProperties.SignUpLogInCurrent | api/users/views.py:37-62 | sign-up with a possibly padded username and password answers 201 with the trimmed username; login with the same padded credentials answers 200 with the new token; `current` names the new account by its trimmed username |
| UserHandlers.SignUp | api/users/views.py:37-44 | the imperative `signup` answers and writes as `UserViews.SignUp` |
| UserHandlers.LogIn | api/users/views.py:46-56 | the imperative `login` answers and writes as `UserViews.LogIn` |
| UserHandlers.Current | api/users/views.py:58-62 | the imperative `current` answers as `UserViews.CurrentUser` |
| UserHandlers.Update | api/users/views.py:16 | the imperative update handler answers and writes as `UserViews.UpdateWith`, PUT or PATCH as `partial` says |
| UserHandlers.Destroy | api/users/views.py:17 | the imperative `destroy` answers and writes as `UserViews.DestroyAccount` |
| UserHandlers.Retrieve | api/users/views.py:16-18 | the imperative GET on a detail route answers as `UserViews.RetrieveAccount` |
| UserHandlers.Dispatch | api/users/views.py:16-18 | every routed request answers and writes as `UserViews.Handle` |

## Left out

- URL routing (api/tasks/urls.py, api/users/urls.py, api/todo_api/urls.py) only binds paths to the viewsets. Requests are modelled as already routed, so a username that the router's path pattern would not match is not modelled.
- api/users/permissions.py duplicates `IsAccountOwner` and is never imported by the views.
- api/users/models.py declares an empty subclass of the framework user. Only its username and credential columns are modelled.
- Token resolution is not modelled: the caller is a parameter. Resolving the `Authorization` header to a user, and the inactive-user check inside `authenticate`, are framework settings and code that are not part of this model.
- Password hashing is replaced by storing the credential and comparing it by equality. Token key generation is replaced by a `freshKey` parameter that no other user holds.
- Search, filtering and ordering of the task list (api/tasks/views.py:30-34) are not modelled, including the default order by `is_completed` then `limit_date`. Task rows are a map keyed by id, so the model says which rows are listed but not in what order.
- Pagination, HTTP status codes beyond the response kinds, and the JSON encoding are not modelled.
- Error bodies are modelled as the set of offending field names or the non-field message, not the framework's wording.
- `Task.__str__` (api/tasks/models.py:32-33) is not used by the core.
- UserSerializers.UpdateErrors: does not model the character set that the framework's username validator allows on an update (letters, digits and `@.+-_`), because that validator is framework code that is not part of this model.
- Database.InsertUser: stores the trimmed username as given. The framework's `create_user` stores its NFKC normal form, which is not modelled (no Unicode tables here).
- UserSerializers.CreateAccount: for the same reason, a sign-up whose username is unused but whose NFKC form is taken (say "ﬁle" while "file" exists) fails on the unique column as a server error in the program, and is answered 201 here.
- UserViews.SignUp: inherits the NFKC gap above.
- TaskViews.GetObject: `get_object` also runs the list's search, filter and ordering backends on the queryset, so query parameters on a detail request can make one's own task "not found". Those backends are not modelled, so the lookup here ignores query parameters.
- Route precedence: the extra actions are routed before the detail route, so accounts named "signup", "login" or "current" cannot be reached by PUT, PATCH or DELETE (the extra route runs the default authentication check and then answers "method not allowed"). Requests are modelled as already routed, so this is not modelled.
- Task rows are keyed by a task id, but no task rendering in the code carries that id; the id in a routed request stands for the primary key in the URL.
- Each request is modelled as one atomic step. Concurrent requests are not modelled, so two races of the program are not either: two sign-ups of the same unused name can both pass the uniqueness check and one then fails on the unique index as a server error, and two first logins of one account can race in the token get-or-create the same way.
- The test files are used only as cited evidence of intended behaviour. Their own defects are not modelled: `test_update_user` is defined twice, the delete test sends its request to `/education/<pk>/`, a prefix no router registers (api/users/tests.py:107), and the tests address users by primary key although the lookup is by username.
