/**
 * AuthenticationSqlRepository: the store behind sign-in and the middleware.
 *
 * The provider lookup exists twice. FindUserIDByProviderAsWritten is the
 * source: a lookup that finds nothing answers (uuid.Nil, nil), the same as a
 * successful lookup, so the caller's `err == sql.ErrNoRows` test never holds
 * and an account seen for the first time is never registered.
 * FindUserIDByProvider is the corrected lookup, which reports "no rows" as
 * `sql.ErrNoRows`; the sign-in flow the model uses calls that one.
 */
module AuthenticationRepository {
  import opened Wrappers
  import opened Uuid
  import Sql
  import opened Goth
  import opened Store
  import opened AuthenticationEntity

  /** The parameters RegisterAuthUser hands to the insert: the goth fields, unchanged. */
  function CreateAuthUserParamsFor(gothUser: GothUser): CreateAuthUserParams {
    CreateAuthUserParams(gothUser.email, gothUser.firstName, gothUser.lastName, gothUser.provider, gothUser.userID)
  }

  class AuthenticationSqlRepository {
    const db: Database

    constructor (db: Database)
      ensures this.db == db
    {
      this.db := db;
    }

    /** The lookup as written: "no rows" is turned into a nil error with uuid.Nil. */
    method FindUserIDByProviderAsWritten(providerUserID: string, fault: Option<string>)
      returns (id: UUID, err: Option<Sql.Error>)
      ensures fault.Some? ==> id == Nil && err == Some(Sql.DriverError(fault.value))
      ensures fault.None? && providerUserID in db.authProviders ==>
        id == db.authProviders[providerUserID].userID && err == None
      ensures fault.None? && providerUserID !in db.authProviders ==> id == Nil && err == None
      ensures err != Some(Sql.ErrNoRows)
    {
      var result := db.FindUserIDByProvider(providerUserID, fault);
      if result == QueryError(Sql.ErrNoRows) {
        return Nil, None;
      }
      if result.QueryError? {
        return Nil, Some(result.error);
      }
      return result.value, None;
    }

    /** The corrected lookup: "no rows" stays `sql.ErrNoRows`, so not-found and found are told apart. */
    method FindUserIDByProvider(providerUserID: string, fault: Option<string>)
      returns (id: UUID, err: Option<Sql.Error>)
      ensures fault.Some? ==> id == Nil && err == Some(Sql.DriverError(fault.value))
      ensures fault.None? && providerUserID in db.authProviders ==>
        id == db.authProviders[providerUserID].userID && err == None
      ensures fault.None? && providerUserID !in db.authProviders ==> id == Nil && err == Some(Sql.ErrNoRows)
    {
      var result := db.FindUserIDByProvider(providerUserID, fault);
      if result.QueryError? {
        return Nil, Some(result.error);
      }
      return result.value, None;
    }

    /**
     * A new AuthUser copied from the users row; no row gives (nil, nil), any
     * other failure (nil, err).
     */
    method FindAuthUserByID(id: UUID, fault: Option<string>)
      returns (authUser: AuthUser?, err: Option<Sql.Error>)
      ensures fault.Some? ==> authUser == null && err == Some(Sql.DriverError(fault.value))
      ensures fault.None? && id !in db.users ==> authUser == null && err == None
      ensures fault.None? && id in db.users ==> err == None && authUser != null && fresh(authUser)
      ensures fault.None? && id in db.users ==>
        && authUser.id == id
        && authUser.email == db.users[id].email && authUser.firstName == db.users[id].firstName
        && authUser.lastName == db.users[id].lastName && authUser.mobileNumber == db.users[id].mobileNumber
    {
      var result := db.FindUserByID(id, fault);
      if result == QueryError(Sql.ErrNoRows) {
        return null, None;
      }
      if result.QueryError? {
        return null, Some(result.error);
      }
      var row := result.value;
      authUser := new AuthUser(id, row.email, row.firstName, row.lastName, row.mobileNumber);
      err := None;
    }

    /**
     * Inserts the user and its provider link from the goth fields, unchanged;
     * a failure returns uuid.Nil and leaves both tables as they were.
     */
    method RegisterAuthUser(gothUser: GothUser, newID: UUID, fault: Option<string>)
      returns (id: UUID, err: Option<Sql.Error>)
      modifies db
      ensures fault.Some? ==> id == Nil && err == Some(Sql.DriverError(fault.value))
      ensures fault.Some? ==> unchanged(db)
      ensures fault.None? ==> id == newID && err == None
      ensures fault.None? ==> db.users == old(db.users)[newID := UserRow(gothUser.email, gothUser.firstName, gothUser.lastName, None)]
      ensures fault.None? ==> db.authProviders == old(db.authProviders)[gothUser.userID := ProviderLink(newID, gothUser.provider)]
    {
      var params := CreateAuthUserParamsFor(gothUser);
      id, err := db.CreateAuthUser(params, newID, fault);
      if err.Some? {
        return Nil, err;
      }
    }
  }
}
