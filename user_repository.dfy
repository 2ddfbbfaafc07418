/**
 * UserSqlRepository: the users table seen as domain users.
 *
 * A `*User` argument or result is an `Option<User>`, None being nil. Go's
 * runtime panics are results too: every method returns `panicked`, Some
 * carrying the runtime's message when the Go code would dereference a nil
 * pointer (a nil user argument, or a row whose mobile number is NULL).
 */
module UserRepository {
  import opened Wrappers
  import opened Uuid
  import Sql
  import opened Store
  import opened UserEntity

  const NilDereference := "runtime error: invalid memory address or nil pointer dereference"

  /** The row stored for a user: the mobile number always as a non-NULL value, possibly "". */
  function RowFor(user: User): UserRow {
    UserRow(user.email, user.firstName, user.lastName, Some(user.mobileNumber))
  }

  /** The domain user read back from a row whose mobile number is not NULL. */
  function UserFromRow(id: UUID, row: UserRow): User
    requires row.mobileNumber.Some?
  {
    User(id, row.email, row.firstName, row.lastName, row.mobileNumber.value)
  }

  /** Reading back what was stored gives the same user. */
  lemma UserFromRowForIsIdentity(user: User)
    ensures RowFor(user).mobileNumber.Some?
    ensures UserFromRow(user.id, RowFor(user)) == user
  {
  }

  class UserSqlRepository {
    const db: Database

    constructor (db: Database)
      ensures this.db == db
    {
      this.db := db;
    }

    /**
     * No row gives (nil, nil), another failure (nil, err); a row with a NULL
     * mobile number panics on the dereference; otherwise the row as a user.
     */
    method FindUserByID(id: UUID, fault: Option<string>)
      returns (user: Option<User>, err: Option<Sql.Error>, panicked: Option<string>)
      ensures fault.Some? ==> user == None && err == Some(Sql.DriverError(fault.value)) && panicked == None
      ensures fault.None? && id !in db.users ==> user == None && err == None && panicked == None
      ensures fault.None? && id in db.users && db.users[id].mobileNumber.None? ==> panicked == Some(NilDereference)
      ensures fault.None? && id in db.users && db.users[id].mobileNumber.Some? ==>
        user == Some(UserFromRow(id, db.users[id])) && err == None && panicked == None
    {
      var result := db.FindUserByID(id, fault);
      if result == QueryError(Sql.ErrNoRows) {
        return None, None, None;
      }
      if result.QueryError? {
        return None, Some(result.error), None;
      }
      var row := result.value;
      if row.mobileNumber.None? {
        return None, None, Some(NilDereference);
      }
      user := Some(UserFromRow(id, row));
      err, panicked := None, None;
    }

    /** Inserts the user under a generated id, its own id ignored; a failure returns uuid.Nil. */
    method RegisterUser(user: Option<User>, newID: UUID, fault: Option<string>)
      returns (id: UUID, err: Option<Sql.Error>, panicked: Option<string>)
      modifies db`users
      ensures user.None? ==> panicked == Some(NilDereference) && unchanged(db)
      ensures user.Some? ==> panicked == None
      ensures user.Some? && fault.Some? ==> id == Nil && err == Some(Sql.DriverError(fault.value)) && unchanged(db)
      ensures user.Some? && fault.None? ==>
        id == newID && err == None && db.users == old(db.users)[newID := RowFor(user.value)]
    {
      if user.None? {
        return Nil, None, Some(NilDereference);
      }
      var u := user.value;
      var params := AddUserParams(u.email, u.firstName, u.lastName, Some(u.mobileNumber));
      id, err := db.AddUser(params, newID, fault);
      if err.Some? {
        return Nil, err, None;
      }
      panicked := None;
    }

    /**
     * Overwrites the row of the user's id; no such row is `sql.ErrNoRows` with
     * a nil user, success returns the user it was given.
     */
    method UpdateUser(user: Option<User>, fault: Option<string>)
      returns (updated: Option<User>, err: Option<Sql.Error>, panicked: Option<string>)
      modifies db`users
      ensures user.None? ==> panicked == Some(NilDereference) && unchanged(db)
      ensures user.Some? ==> panicked == None
      ensures user.Some? && fault.Some? ==>
        updated == None && err == Some(Sql.DriverError(fault.value)) && unchanged(db)
      ensures user.Some? && fault.None? && user.value.id !in old(db.users) ==>
        updated == None && err == Some(Sql.ErrNoRows) && unchanged(db)
      ensures user.Some? && fault.None? && user.value.id in old(db.users) ==>
        && updated == user && err == None
        && db.users == old(db.users)[user.value.id := RowFor(user.value)]
    {
      if user.None? {
        return None, None, Some(NilDereference);
      }
      var u := user.value;
      var params := UpdateUserParams(u.email, u.firstName, u.lastName, Some(u.mobileNumber), u.id);
      var rowsAffected;
      rowsAffected, err := db.UpdateUser(params, fault);
      if err.Some? {
        return None, err, None;
      }
      if rowsAffected == 0 {
        return None, Some(Sql.ErrNoRows), None;
      }
      return user, None, None;
    }

    /** Removes the row of the user's id and nothing else; no such row is `sql.ErrNoRows`. */
    method DeleteUser(user: Option<User>, fault: Option<string>)
      returns (err: Option<Sql.Error>, panicked: Option<string>)
      modifies db`users
      ensures user.None? ==> panicked == Some(NilDereference) && unchanged(db)
      ensures user.Some? ==> panicked == None
      ensures user.Some? && fault.Some? ==> err == Some(Sql.DriverError(fault.value)) && unchanged(db)
      ensures user.Some? && fault.None? ==>
        && err == (if user.value.id in old(db.users) then None else Some(Sql.ErrNoRows))
        && db.users == old(db.users) - {user.value.id}
    {
      if user.None? {
        return None, Some(NilDereference);
      }
      var rowsAffected;
      rowsAffected, err := db.DeleteUser(user.value.id, fault);
      if err.Some? {
        return err, None;
      }
      if rowsAffected == 0 {
        return Some(Sql.ErrNoRows), None;
      }
      return None, None;
    }
  }

  /** What an update stores is what a later lookup finds. */
  method UpdateThenFind(repository: UserSqlRepository, user: User) returns (found: Option<User>)
    requires user.id in repository.db.users
    modifies repository.db
    ensures found == Some(user)
  {
    var updated, err, panicked := repository.UpdateUser(Some(user), None);
    UserFromRowForIsIdentity(user);
    found, err, panicked := repository.FindUserByID(user.id, None);
  }

  /** What a registration stores is found under the id it returns. */
  method RegisterThenFind(repository: UserSqlRepository, user: User, newID: UUID) returns (found: Option<User>)
    modifies repository.db
    ensures found == Some(user.(id := newID))
  {
    var id, err, panicked := repository.RegisterUser(Some(user), newID, None);
    UserFromRowForIsIdentity(user.(id := newID));
    found, err, panicked := repository.FindUserByID(id, None);
  }
}
