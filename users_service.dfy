/** src/services/postgres/UsersService.js: registering and reading users.

    `bcrypt.hash` is the parameter `hash` of the service: the model fixes what
    is stored (the image of the password, never the password itself) but not
    the salt bcrypt draws. Ids are parameters. */
module PgUsers {
  import opened Common
  import opened Store

  const UsernameTaken := "Gagal menambahkan user. Username sudah digunakan"
  const UserNotFound := "Gagal mendapatkan user. Id tidak ditemukan"

  /** `SELECT id, username, fullname FROM users`: the password hash stays behind. */
  datatype UserInfo = UserInfo(id: string, username: string, fullname: string)

  predicate UsernameInUse(users: map<string, UserRow>, username: string) {
    exists id :: id in users && users[id].username == username
  }

  /** No two users share a username. */
  ghost predicate UsernamesUnique(users: map<string, UserRow>) {
    forall a, b :: a in users && b in users && a != b ==> users[a].username != users[b].username
  }

  class UsersService {
    const db: Database
    const hash: string -> string

    constructor (db: Database, hash: string -> string)
      ensures this.db == db && this.hash == hash
    {
      this.db := db;
      this.hash := hash;
    }

    /** `addUser`: a username may be registered once; the row stores the
        password's hash under the id `user-` followed by the nanoid. */
    method AddUser(username: string, password: string, fullname: string, nanoid: string)
      returns (r: Fallible<string>)
      requires db.Valid()
      modifies db`users
      ensures db.Valid()
      ensures UsernameInUse(old(db.users), username) ==>
        r == Failure(ClientError(Invariant, UsernameTaken))
      ensures (!UsernameInUse(old(db.users), username) && "user-" + nanoid in old(db.users)) ==>
        r == Failure(StoreError(UniqueViolation))
      ensures r.Success? <==> !UsernameInUse(old(db.users), username) && "user-" + nanoid !in old(db.users)
      ensures r.Failure? ==> db.users == old(db.users)
      ensures r.Success? ==>
        && r.value == "user-" + nanoid && r.value[..5] == "user-"
        && db.users == old(db.users)[r.value := UserRow(r.value, username, hash(password), fullname)]
        && UsernameInUse(db.users, username)
      ensures old(UsernamesUnique(db.users)) ==> UsernamesUnique(db.users)
    {
      var id := "user-" + nanoid;
      :- VerifyUserNewUsername(username);
      var hashedPassword := hash(password);
      if id in db.users {
        return Failure(StoreError(UniqueViolation));
      }
      db.users := db.users[id := UserRow(id, username, hashedPassword, fullname)];
      assert db.users[id].username == username;
      // INSERT ... RETURNING id returns the inserted row, so the check for an
      // empty result ('User gagal ditambahkan') never fails
      return Success(id);
    }

    /** `verifyUserNewUsername`: passes exactly when no user has the name. */
    method VerifyUserNewUsername(username: string) returns (r: Check)
      ensures r == Pass <==> !UsernameInUse(db.users, username)
      ensures r != Pass ==> r == Fail(ClientError(Invariant, UsernameTaken))
    {
      if UsernameInUse(db.users, username) {
        return Fail(ClientError(Invariant, UsernameTaken));
      }
      return Pass;
    }

    /** `getUserById`: id, username and full name, without the password. */
    method GetUserById(userId: string) returns (r: Fallible<UserInfo>)
      requires db.Valid()
      ensures userId !in db.users ==> r == Failure(ClientError(NotFound, UserNotFound))
      ensures userId in db.users ==>
        r == Success(UserInfo(userId, db.users[userId].username, db.users[userId].fullname))
    {
      if userId !in db.users {
        return Failure(ClientError(NotFound, UserNotFound));
      }
      var row := db.users[userId];
      return Success(UserInfo(row.id, row.username, row.fullname));
    }
  }

  /** Registering the same username twice: the second attempt is refused
      whatever nanoid it draws, and the first user can be read back. */
  method RegisterTwice(hash: string -> string, username: string)
    returns (first: Fallible<string>, second: Fallible<string>, read: Fallible<UserInfo>)
    ensures first == Success("user-a")
    ensures second == Failure(ClientError(Invariant, UsernameTaken))
    ensures read == Success(UserInfo("user-a", username, "First"))
  {
    var db := new Database();
    var service := new UsersService(db, hash);
    assert !UsernameInUse(db.users, username);
    first := service.AddUser(username, "secret", "First", "a");
    assert "user-" + "a" == "user-a";
    second := service.AddUser(username, "other", "Second", "b");
    read := service.GetUserById("user-a");
  }
}
