/** The three tables the views read and write: users (with the unique index
    on `username`), authentication tokens (one per user) and tasks, with the
    object-relational calls the core makes on them. Primary keys come from
    per-table counters, as auto-increment keys do. */
module Database {
  import opened Rest
  import opened Permissions
  import opened TaskModel

  /** A row of the user table. `password` stands for the stored credential;
      the hashing applied to it is not modelled. */
  datatype Account = Account(username: string, password: string)

  datatype Db = Db(
    users: map<UserId, Account>,
    byName: map<string, UserId>,
    tokens: map<UserId, Token>,
    tasks: map<TaskId, Task>,
    nextUserId: nat,
    nextTaskId: nat)

  /** Every key in use is below its table's counter, so the next key is
      fresh. */
  ghost predicate KeysBelowCounters(db: Db)
  {
    && (forall id :: id in db.users ==> id < db.nextUserId)
    && (forall id :: id in db.tasks ==> id < db.nextTaskId)
  }

  /** `byName` is the unique index on `username`: it maps each username in
      use to the one row that holds it, and nothing else. */
  ghost predicate UsernamesIndexed(db: Db)
  {
    && (forall id :: id in db.users ==>
          db.users[id].username in db.byName && db.byName[db.users[id].username] == id)
    && (forall n :: n in db.byName ==> db.byName[n] in db.users && db.users[db.byName[n]].username == n)
  }

  /** A token belongs to an existing user (one-to-one, deleted with the
      user), and no two users share a key. */
  ghost predicate TokensUnique(db: Db)
  {
    && (forall u :: u in db.tokens ==> u in db.users)
    && (forall u, v :: u in db.tokens && v in db.tokens && db.tokens[u] == db.tokens[v] ==> u == v)
  }

  /** Every task references an existing owner. The column is nullable, but
      every task is created with its owner set and loses it only by being
      deleted together with that owner. */
  ghost predicate OwnersExist(db: Db)
  {
    forall id :: id in db.tasks ==> db.tasks[id].user.Some? && db.tasks[id].user.value in db.users
  }

  /** Stored usernames carry no surrounding whitespace: every path that
      writes one goes through a `CharField`, which trims it. */
  ghost predicate UsernamesTrimmed(db: Db)
  {
    forall id :: id in db.users ==> Trimmed(db.users[id].username)
  }

  ghost predicate Valid(db: Db)
  {
    KeysBelowCounters(db) && UsernamesIndexed(db) && TokensUnique(db) && OwnersExist(db) &&
    UsernamesTrimmed(db)
  }

  /** An authenticated caller is a row of the user table. */
  ghost predicate Known(db: Db, actor: Actor)
  {
    actor.Authenticated? ==> actor.id in db.users
  }

  /** The empty database. */
  function Empty(): (db: Db)
    ensures Valid(db)
    ensures db.users == map[] && db.tokens == map[] && db.tasks == map[]
  {
    Db(map[], map[], map[], map[], 0, 0)
  }

  /** The username of a task's owner: what the `user` field renders to. */
  function OwnerName(db: Db, t: Task): string
    requires t.user.Some? && t.user.value in db.users
  {
    db.users[t.user.value].username
  }

  /** `User.objects.create_user`: a new row under a fresh key, entered in
      the username index. The unique index refuses a username in use, which
      the callers check beforehand. */
  function InsertUser(db: Db, username: string, password: string): (r: (UserId, Db))
    requires Valid(db) && username !in db.byName && Trimmed(username)
    ensures Valid(r.1)
    ensures r.0 !in db.users
    ensures r.1.users == db.users[r.0 := Account(username, password)]
    ensures r.1.byName == db.byName[username := r.0]
    ensures r.1.tokens == db.tokens && r.1.tasks == db.tasks
  {
    var id := db.nextUserId;
    (id, db.(users := db.users[id := Account(username, password)],
             byName := db.byName[username := id],
             nextUserId := id + 1))
  }

  /** Saving an account whose username was changed: the row keeps its key,
      so the tasks and the token that reference it follow it. */
  function RenameUser(db: Db, id: UserId, username: string): (db': Db)
    requires Valid(db) && id in db.users
    requires username in db.byName ==> db.byName[username] == id
    requires Trimmed(username)
    ensures Valid(db')
    ensures db'.users == db.users[id := db.users[id].(username := username)]
    ensures username in db'.byName && db'.byName[username] == id
    ensures db'.tokens == db.tokens && db'.tasks == db.tasks
  {
    var previous := db.users[id].username;
    db.(users := db.users[id := db.users[id].(username := username)],
        byName := (db.byName - {previous})[username := id])
  }

  /** Deleting an account. The task owner and the token reference it with
      cascading deletes, so the account's tasks and token go with it and
      nothing else does. */
  function DeleteUser(db: Db, id: UserId): (db': Db)
    requires Valid(db) && id in db.users
    ensures Valid(db')
    ensures db'.users == db.users - {id}
    ensures db'.tokens == db.tokens - {id}
    ensures forall t :: t in db'.tasks <==> t in db.tasks && db.tasks[t].user != Some(id)
    ensures forall t :: t in db'.tasks ==> db'.tasks[t] == db.tasks[t]
  {
    db.(users := db.users - {id},
        byName := db.byName - {db.users[id].username},
        tokens := db.tokens - {id},
        tasks := map t | t in db.tasks && db.tasks[t].user != Some(id) :: db.tasks[t])
  }

  /** `Token.objects.get_or_create(user=...)`: the user's token if there is
      one, otherwise a new token with the supplied key. */
  function GetOrCreateToken(db: Db, user: UserId, freshKey: Token): (r: (Token, Db))
    requires Valid(db) && user in db.users
    requires freshKey !in db.tokens.Values
    ensures Valid(r.1)
    ensures user in r.1.tokens && r.1.tokens[user] == r.0
    ensures user in db.tokens ==> r == (db.tokens[user], db)
    ensures user !in db.tokens ==> r.0 == freshKey && r.1 == db.(tokens := db.tokens[user := freshKey])
  {
    if user in db.tokens then (db.tokens[user], db)
    else (freshKey, db.(tokens := db.tokens[user := freshKey]))
  }

  /** `Task.objects.create`: a new row under a fresh key. */
  function InsertTask(db: Db, t: Task): (r: (TaskId, Db))
    requires Valid(db) && t.user.Some? && t.user.value in db.users
    ensures Valid(r.1)
    ensures r.0 !in db.tasks
    ensures r.1.tasks == db.tasks[r.0 := t]
    ensures r.1.users == db.users && r.1.byName == db.byName && r.1.tokens == db.tokens
  {
    var id := db.nextTaskId;
    (id, db.(tasks := db.tasks[id := t], nextTaskId := id + 1))
  }

  /** `task.save()` on a fetched task: the row is overwritten in place. */
  function SaveTask(db: Db, id: TaskId, t: Task): (db': Db)
    requires Valid(db) && id in db.tasks && t.user == db.tasks[id].user
    ensures Valid(db')
    ensures db' == db.(tasks := db.tasks[id := t])
  {
    db.(tasks := db.tasks[id := t])
  }

  /** `task.delete()`: the row is gone and every other row is kept. */
  function DeleteTask(db: Db, id: TaskId): (db': Db)
    requires Valid(db)
    ensures Valid(db')
    ensures db' == db.(tasks := db.tasks - {id})
  {
    db.(tasks := db.tasks - {id})
  }
}
