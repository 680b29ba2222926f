/** The user-administration endpoints: create, read, update and delete over the user
    table. The table maps ids to rows; usernames are unique (the table has a unique index
    on them). Password hashing is a parameter `hash`; the caller's identity, which the
    admin-only dependency supplies, is the id `currentId`. */
module Users {
  import opened Common

  datatype Role = Admin | Operator

  datatype User = User(id: int, username: string, passwordHash: string, role: Role, active: bool)

  /** The body of a create request; role and active default to operator and true. */
  datatype UserCreate = UserCreate(username: string, password: string, role: Role, active: bool)

  /** The body of an update request: each field may be absent. */
  datatype UserUpdate = UserUpdate(password: Option<string>, role: Option<Role>, active: Option<bool>)

  datatype HttpError = HttpError(status: int, detail: string)

  type Table = map<int, User>

  const NotFound := HttpError(404, "User not found")
  const UsernameTakenError := HttpError(400, "Username already registered")
  const SelfDeleteError := HttpError(400, "Cannot delete yourself")

  /** A create request as the client may send it, with the defaults filled in. */
  function CreateRequest(username: string, password: string, role: Role := Operator, active: bool := true)
    : UserCreate
  {
    UserCreate(username, password, role, active)
  }

  /** Rows sit under their own id, and no two rows share a username. */
  predicate ValidTable(users: Table)
  {
    && (forall i | i in users :: users[i].id == i)
    && (forall i, j | i in users && j in users && users[i].username == users[j].username :: i == j)
  }

  predicate UsernameTaken(users: Table, name: string)
  {
    exists i | i in users :: users[i].username == name
  }

  /** `read_user`: the row, or 404. */
  function Read(users: Table, id: int): Result<User, HttpError>
  {
    if id in users then Ok(users[id]) else Err(NotFound)
  }

  /** `create_user`: 400 when the username is taken; otherwise a new row under `newId` with
      the request's username, role and active flag and the hash of its password. */
  function Create(users: Table, newId: int, req: UserCreate, hash: string -> string)
    : (Table, Result<User, HttpError>)
  {
    if UsernameTaken(users, req.username) then (users, Err(UsernameTakenError))
    else
      var u := User(newId, req.username, hash(req.password), req.role, req.active);
      (users[newId := u], Ok(u))
  }

  /** The changes an update request makes to one row: a new hash when the password is given
      and not blank after stripping, then role and active when given. */
  function Patched(u: User, upd: UserUpdate, hash: string -> string): User
  {
    var u1 := if upd.password.Some? && upd.password.value != [] && Strip(upd.password.value) != []
              then u.(passwordHash := hash(upd.password.value)) else u;
    var u2 := if upd.role.Some? then u1.(role := upd.role.value) else u1;
    if upd.active.Some? then u2.(active := upd.active.value) else u2
  }

  /** `update_user`: 404 for a missing id, otherwise the patched row. */
  function Update(users: Table, id: int, upd: UserUpdate, hash: string -> string)
    : (Table, Result<User, HttpError>)
  {
    if id !in users then (users, Err(NotFound))
    else
      var u := Patched(users[id], upd, hash);
      (users[id := u], Ok(u))
  }

  /** `delete_user`: 404 for a missing id, 400 for the caller's own id, else the row is
      removed and the answer is ok. */
  function Delete(users: Table, id: int, currentId: int): (Table, Result<bool, HttpError>)
  {
    if id !in users then (users, Err(NotFound))
    else if id == currentId then (users, Err(SelfDeleteError))
    else (map j | j in users && j != id :: users[j], Ok(true))
  }

  // ----- the table, updated in place

  class UserStore {
    var users: Table
    var nextId: int

    ghost predicate Valid()
      reads this
    {
      ValidTable(users) && forall i | i in users :: i < nextId
    }

    constructor ()
      ensures Valid() && users == map[]
    {
      users := map[];
      nextId := 1;
    }

    method ReadUser(id: int) returns (r: Result<User, HttpError>)
      ensures r == Read(users, id)
    {
      if id in users {
        r := Ok(users[id]);
      } else {
        r := Err(NotFound);
      }
    }

    /** The new row takes the next unused id. */
    method CreateUser(req: UserCreate, hash: string -> string) returns (r: Result<User, HttpError>)
      requires Valid()
      modifies this
      ensures Valid()
      ensures (users, r) == Create(old(users), old(nextId), req, hash)
      ensures nextId == if r.Ok? then old(nextId) + 1 else old(nextId)
    {
      var existing := exists i | i in users :: users[i].username == req.username;
      if existing {
        r := Err(UsernameTakenError);
        return;
      }
      var hashed := hash(req.password);
      var u := User(nextId, req.username, hashed, req.role, req.active);
      CreateKeepsValid(users, nextId, req, hash);
      users := users[nextId := u];
      nextId := nextId + 1;
      r := Ok(u);
    }

    method UpdateUser(id: int, upd: UserUpdate, hash: string -> string) returns (r: Result<User, HttpError>)
      requires Valid()
      modifies this
      ensures Valid()
      ensures (users, r) == Update(old(users), id, upd, hash)
      ensures nextId == old(nextId)
    {
      if id !in users {
        r := Err(NotFound);
        return;
      }
      var u := users[id];
      if upd.password.Some? && upd.password.value != [] && Strip(upd.password.value) != [] {
        u := u.(passwordHash := hash(upd.password.value));
      }
      if upd.role.Some? {
        u := u.(role := upd.role.value);
      }
      if upd.active.Some? {
        u := u.(active := upd.active.value);
      }
      UpdateKeepsValid(users, id, upd, hash);
      users := users[id := u];
      r := Ok(u);
    }

    method DeleteUser(id: int, currentId: int) returns (r: Result<bool, HttpError>)
      requires Valid()
      modifies this
      ensures Valid()
      ensures (users, r) == Delete(old(users), id, currentId)
      ensures nextId == old(nextId)
    {
      if id !in users {
        r := Err(NotFound);
        return;
      }
      if users[id].id == currentId {
        r := Err(SelfDeleteError);
        return;
      }
      DeleteKeepsValid(users, id, currentId);
      users := map j | j in users && j != id :: users[j];
      r := Ok(true);
    }
  }

  // ----- properties

  /** Creation fails exactly when the username is taken, and then with 400 and no change. */
  lemma CreateRejectsTaken(users: Table, newId: int, req: UserCreate, hash: string -> string)
    ensures Create(users, newId, req, hash).1.Err? <==> UsernameTaken(users, req.username)
    ensures Create(users, newId, req, hash).1.Err? ==>
      Create(users, newId, req, hash) == (users, Err(HttpError(400, "Username already registered")))
  {
  }

  /** A created user reads back as stored: the request's fields and the password's hash. */
  lemma CreateThenRead(users: Table, newId: int, req: UserCreate, hash: string -> string)
    requires !UsernameTaken(users, req.username)
    ensures var (t, r) := Create(users, newId, req, hash);
      && r.Ok?
      && Read(t, newId) == r
      && r.value.username == req.username && r.value.passwordHash == hash(req.password)
      && r.value.role == req.role && r.value.active == req.active
  {
  }

  /** Omitting role and active creates an active operator. */
  lemma CreateDefaults(users: Table, newId: int, username: string, password: string, hash: string -> string)
    requires !UsernameTaken(users, username)
    ensures var r := Create(users, newId, CreateRequest(username, password), hash).1;
      r.Ok? && r.value.role == Operator && r.value.active
  {
  }

  /** Creating under an unused id keeps usernames unique and leaves every other row. */
  lemma CreateKeepsValid(users: Table, newId: int, req: UserCreate, hash: string -> string)
    requires ValidTable(users) && newId !in users
    ensures ValidTable(Create(users, newId, req, hash).0)
    ensures forall i | i in users ::
      (i in Create(users, newId, req, hash).0 && Create(users, newId, req, hash).0[i] == users[i])
  {
  }

  /** Reading, updating or deleting a missing id answers 404 and changes nothing. */
  lemma MissingIsNotFound(users: Table, id: int, upd: UserUpdate, hash: string -> string, currentId: int)
    requires id !in users
    ensures Read(users, id) == Err(HttpError(404, "User not found"))
    ensures Update(users, id, upd, hash) == (users, Err(HttpError(404, "User not found")))
    ensures Delete(users, id, currentId) == (users, Err(HttpError(404, "User not found")))
  {
  }

  /** The password hash changes only for a given password with a non-space character;
      role and active follow the request when given; id and username never change. */
  lemma PatchedFields(u: User, upd: UserUpdate, hash: string -> string)
    ensures var p := Patched(u, upd, hash);
      && p.id == u.id && p.username == u.username
      && p.passwordHash ==
           (if upd.password.Some? && !IsBlank(upd.password.value) then hash(upd.password.value)
            else u.passwordHash)
      && p.role == (if upd.role.Some? then upd.role.value else u.role)
      && p.active == (if upd.active.Some? then upd.active.value else u.active)
  {
    if upd.password.Some? {
      StripEmptyIffBlank(upd.password.value);
    }
  }

  /** Applying the same update twice is the same as applying it once. */
  lemma UpdateIdempotent(users: Table, id: int, upd: UserUpdate, hash: string -> string)
    ensures var (t, r) := Update(users, id, upd, hash);
      Update(t, id, upd, hash) == (t, r)
  {
    if id in users {
      var p := Patched(users[id], upd, hash);
      PatchedFields(users[id], upd, hash);
      PatchedFields(p, upd, hash);
      assert Patched(p, upd, hash) == p;
      var t := users[id := p];
      assert t[id] == p;
      assert Update(t, id, upd, hash) == (t[id := p], Ok(p));
      assert t[id := p] == t;
    }
  }

  /** With a salted hash the second application hashes the password anew: repeating an
      update with a possibly different `hash'` leaves every row as the first left it, except
      the updated row's password hash, which is `hash'` of the password; without a non-blank
      password the repeat changes nothing at all. */
  lemma UpdateRepeatedRehashes(users: Table, id: int, upd: UserUpdate, hash: string -> string,
                               hash': string -> string)
    ensures var (t, r) := Update(users, id, upd, hash);
      var (t', r') := Update(t, id, upd, hash');
      && t'.Keys == t.Keys
      && (forall i | i in t && i != id :: t'[i] == t[i])
      && (id in t ==> r' == Ok(t'[id]) && t'[id] == t[id].(passwordHash := t'[id].passwordHash))
      && (id in t && upd.password.Some? && !IsBlank(upd.password.value) ==>
            t'[id].passwordHash == hash'(upd.password.value))
      && (id !in t ==> (t', r') == (t, r))
      && (!(upd.password.Some? && !IsBlank(upd.password.value)) ==> (t', r') == (t, r))
  {
    if id in users {
      var p := Patched(users[id], upd, hash);
      PatchedFields(users[id], upd, hash);
      PatchedFields(p, upd, hash');
      var t := users[id := p];
      assert t[id] == p;
      if !(upd.password.Some? && !IsBlank(upd.password.value)) {
        assert Patched(p, upd, hash') == p;
        assert t[id := p] == t;
      }
    }
  }

  /** An update touches only its own row, keeps usernames unique, and reads back. */
  lemma UpdateKeepsValid(users: Table, id: int, upd: UserUpdate, hash: string -> string)
    requires ValidTable(users)
    ensures var (t, r) := Update(users, id, upd, hash);
      && ValidTable(t) && t.Keys == users.Keys
      && (forall j | j in users && j != id :: t[j] == users[j])
      && (r.Ok? ==> Read(t, id) == r)
  {
    if id in users {
      PatchedFields(users[id], upd, hash);
    }
  }

  /** Deleting one's own id answers 400 and removes nothing. */
  lemma DeleteSelfRefused(users: Table, id: int)
    requires id in users
    ensures Delete(users, id, id) == (users, Err(HttpError(400, "Cannot delete yourself")))
  {
  }

  /** A successful delete removes exactly the one row: afterwards it reads as 404 and
      every other row is as before. */
  lemma DeleteKeepsValid(users: Table, id: int, currentId: int)
    requires ValidTable(users)
    ensures var (t, r) := Delete(users, id, currentId);
      && ValidTable(t)
      && (r.Ok? <==> id in users && id != currentId)
      && (r.Ok? ==> t.Keys == users.Keys - {id} && Read(t, id) == Err(NotFound))
      && (r.Err? ==> t == users)
      && (forall j | j in t :: j in users && t[j] == users[j])
  {
  }
}
