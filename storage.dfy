/** The database as a mutable object: the tables are fields that the
    object-relational calls reassign in place. Each call is proved to leave
    the tables as the matching function of `Database` describes. */
module Storage {
  import opened Rest
  import opened TaskModel
  import Database

  class Store {
    var users: map<UserId, Database.Account>
    var byName: map<string, UserId>
    var tokens: map<UserId, Token>
    var tasks: map<TaskId, Task>
    var nextUserId: nat
    var nextTaskId: nat

    /** The tables as one value. */
    ghost function Snapshot(): Database.Db
      reads this
    {
      Database.Db(users, byName, tokens, tasks, nextUserId, nextTaskId)
    }

    ghost predicate Valid()
      reads this
    {
      Database.Valid(Snapshot())
    }

    constructor ()
      ensures Valid()
      ensures Snapshot() == Database.Empty()
    {
      users, byName, tokens, tasks := map[], map[], map[], map[];
      nextUserId, nextTaskId := 0, 0;
    }

    method CreateUser(username: string, password: string) returns (id: UserId)
      requires Valid() && username !in byName && Trimmed(username)
      modifies this
      ensures Valid()
      ensures (id, Snapshot()) == Database.InsertUser(old(Snapshot()), username, password)
    {
      ghost var inserted := Database.InsertUser(Snapshot(), username, password);
      id := nextUserId;
      users := users[id := Database.Account(username, password)];
      byName := byName[username := id];
      nextUserId := nextUserId + 1;
      assert (id, Snapshot()) == inserted;
    }

    method RenameUser(id: UserId, username: string)
      requires Valid() && id in users
      requires username in byName ==> byName[username] == id
      requires Trimmed(username)
      modifies this
      ensures Valid()
      ensures Snapshot() == Database.RenameUser(old(Snapshot()), id, username)
    {
      ghost var renamed := Database.RenameUser(Snapshot(), id, username);
      var previous := users[id].username;
      users := users[id := users[id].(username := username)];
      byName := (byName - {previous})[username := id];
      assert Snapshot() == renamed;
    }

    method DeleteUser(id: UserId)
      requires Valid() && id in users
      modifies this
      ensures Valid()
      ensures Snapshot() == Database.DeleteUser(old(Snapshot()), id)
    {
      ghost var deleted := Database.DeleteUser(Snapshot(), id);
      tasks := map t | t in tasks && tasks[t].user != Some(id) :: tasks[t];
      tokens := tokens - {id};
      byName := byName - {users[id].username};
      users := users - {id};
      assert Snapshot() == deleted;
    }

    method GetOrCreateToken(user: UserId, freshKey: Token) returns (key: Token)
      requires Valid() && user in users
      requires freshKey !in tokens.Values
      modifies this
      ensures Valid()
      ensures (key, Snapshot()) == Database.GetOrCreateToken(old(Snapshot()), user, freshKey)
    {
      if user in tokens {
        key := tokens[user];
      } else {
        key := freshKey;
        tokens := tokens[user := key];
      }
    }

    method CreateTask(t: Task) returns (id: TaskId)
      requires Valid() && t.user.Some? && t.user.value in users
      modifies this
      ensures Valid()
      ensures (id, Snapshot()) == Database.InsertTask(old(Snapshot()), t)
    {
      ghost var inserted := Database.InsertTask(Snapshot(), t);
      id := nextTaskId;
      tasks := tasks[id := t];
      nextTaskId := nextTaskId + 1;
      assert (id, Snapshot()) == inserted;
    }

    method SaveTask(id: TaskId, t: Task)
      requires Valid() && id in tasks && t.user == tasks[id].user
      modifies this
      ensures Valid()
      ensures Snapshot() == Database.SaveTask(old(Snapshot()), id, t)
    {
      tasks := tasks[id := t];
    }

    method DeleteTask(id: TaskId)
      requires Valid()
      modifies this
      ensures Valid()
      ensures Snapshot() == Database.DeleteTask(old(Snapshot()), id)
    {
      tasks := tasks - {id};
    }
  }
}
