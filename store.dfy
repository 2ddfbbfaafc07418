/**
 * The database both repositories share (one pgx pool, see
 * internal/domain/repositories.go), reduced to the two tables the core touches,
 * and the generated queries over them.
 *
 * The SQL text of the queries is not part of this model. Their effect is
 * modelled on maps: `users` is keyed by user id, `authProviders` by the
 * provider-assigned user id alone, because that is the only argument the
 * provider lookup takes. Besides what the maps determine, every query can fail
 * with a driver error; that failure is the `fault` parameter. An identifier the
 * database generates on insert is the `newID` parameter.
 */
module Store {
  import opened Wrappers
  import opened Uuid
  import Sql

  /** A row of the users table; a NULL mobile number is None. */
  datatype UserRow = UserRow(email: string, firstName: string, lastName: string, mobileNumber: Option<string>)

  /** A row of the auth_providers table, kept under its provider user id. */
  datatype ProviderLink = ProviderLink(userID: UUID, provider: string)

  /** What a single-row query returns: the row, or an error (`ErrNoRows` when nothing matched). */
  datatype QueryResult<T> = Row(value: T) | QueryError(error: Sql.Error)

  datatype CreateAuthUserParams = CreateAuthUserParams(
    email: string, firstName: string, lastName: string, provider: string, providerUserID: string)

  datatype AddUserParams = AddUserParams(
    email: string, firstName: string, lastName: string, mobileNumber: Option<string>)

  datatype UpdateUserParams = UpdateUserParams(
    email: string, firstName: string, lastName: string, mobileNumber: Option<string>, id: UUID)

  /** The result of a single-row query on a table that may or may not hold the key. */
  function Lookup<K, V>(table: map<K, V>, key: K, fault: Option<string>): QueryResult<V> {
    match fault
    case Some(message) => QueryError(Sql.DriverError(message))
    case None => if key in table then Row(table[key]) else QueryError(Sql.ErrNoRows)
  }

  class Database {
    var users: map<UUID, UserRow>
    var authProviders: map<string, ProviderLink>

    constructor ()
      ensures users == map[] && authProviders == map[]
    {
      users := map[];
      authProviders := map[];
    }

    /** `queries.FindUserIDByProvider`. */
    function FindUserIDByProvider(providerUserID: string, fault: Option<string>): QueryResult<UUID>
      reads this
    {
      match Lookup(authProviders, providerUserID, fault)
      case Row(link) => Row(link.userID)
      case QueryError(e) => QueryError(e)
    }

    /** `queries.FindAuthUserByID` and `queries.FindUserByID`: the users row with that id. */
    function FindUserByID(id: UUID, fault: Option<string>): QueryResult<UserRow>
      reads this
    {
      Lookup(users, id, fault)
    }

    /**
     * `queries.CreateAuthUser`: inserts the user and its provider link together,
     * or nothing. Its parameters carry no mobile number, so the row's is NULL.
     */
    method CreateAuthUser(params: CreateAuthUserParams, newID: UUID, fault: Option<string>)
      returns (id: UUID, err: Option<Sql.Error>)
      modifies this
      ensures fault.Some? ==> id == Nil && err == Some(Sql.DriverError(fault.value))
      ensures fault.Some? ==> unchanged(this)
      ensures fault.None? ==> id == newID && err == None
      ensures fault.None? ==> users == old(users)[newID := UserRow(params.email, params.firstName, params.lastName, None)]
      ensures fault.None? ==> authProviders == old(authProviders)[params.providerUserID := ProviderLink(newID, params.provider)]
    {
      if fault.Some? {
        return Nil, Some(Sql.DriverError(fault.value));
      }
      users := users[newID := UserRow(params.email, params.firstName, params.lastName, None)];
      authProviders := authProviders[params.providerUserID := ProviderLink(newID, params.provider)];
      return newID, None;
    }

    /** `queries.AddUser`: inserts a users row under a generated id. */
    method AddUser(params: AddUserParams, newID: UUID, fault: Option<string>)
      returns (id: UUID, err: Option<Sql.Error>)
      modifies this`users
      ensures fault.Some? ==> id == Nil && err == Some(Sql.DriverError(fault.value)) && users == old(users)
      ensures fault.None? ==> id == newID && err == None
      ensures fault.None? ==> users == old(users)[newID := UserRow(params.email, params.firstName, params.lastName, params.mobileNumber)]
    {
      if fault.Some? {
        return Nil, Some(Sql.DriverError(fault.value));
      }
      users := users[newID := UserRow(params.email, params.firstName, params.lastName, params.mobileNumber)];
      return newID, None;
    }

    /** `queries.UpdateUser`: overwrites the row with that id, if there is one, and counts it. */
    method UpdateUser(params: UpdateUserParams, fault: Option<string>)
      returns (rowsAffected: nat, err: Option<Sql.Error>)
      modifies this`users
      ensures fault.Some? ==> rowsAffected == 0 && err == Some(Sql.DriverError(fault.value)) && users == old(users)
      ensures fault.None? ==> err == None && rowsAffected == (if params.id in old(users) then 1 else 0)
      ensures fault.None? && params.id in old(users) ==>
        users == old(users)[params.id := UserRow(params.email, params.firstName, params.lastName, params.mobileNumber)]
      ensures fault.None? && params.id !in old(users) ==> users == old(users)
    {
      if fault.Some? {
        return 0, Some(Sql.DriverError(fault.value));
      }
      if params.id in users {
        users := users[params.id := UserRow(params.email, params.firstName, params.lastName, params.mobileNumber)];
        return 1, None;
      }
      return 0, None;
    }

    /** `queries.DeleteUser`: removes the row with that id, if there is one, and counts it. */
    method DeleteUser(id: UUID, fault: Option<string>)
      returns (rowsAffected: nat, err: Option<Sql.Error>)
      modifies this`users
      ensures fault.Some? ==> rowsAffected == 0 && err == Some(Sql.DriverError(fault.value)) && users == old(users)
      ensures fault.None? ==> err == None && rowsAffected == (if id in old(users) then 1 else 0)
      ensures fault.None? ==> users == old(users) - {id}
    {
      if fault.Some? {
        return 0, Some(Sql.DriverError(fault.value));
      }
      rowsAffected := if id in users then 1 else 0;
      users := users - {id};
      err := None;
    }
  }
}
