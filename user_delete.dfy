/**
 * The `DELETE /users/{id}` handler: an early-exit chain from the path
 * parameter to the removal of one row.
 *
 * `utilities.ReadIDParam` is not part of this model: its result is the
 * `idParam` input, None standing for an error. `(*User).CanDelete` is the
 * `canDelete` parameter. Logging is left out.
 */
module UserDelete {
  import opened Wrappers
  import opened Uuid
  import Sql
  import opened Store
  import opened UserEntity
  import opened Gin
  import opened UserRepository

  const StatusNoContent := 204
  const StatusBadRequest := 400
  const StatusNotFound := 404
  const StatusInternalServerError := 500

  /** The `UserDeleteCommand` of the request. */
  datatype UserDeleteCommand = UserDeleteCommand(id: UUID)

  /** Lines 68-78: the response to what the delete returned. */
  function DeleteResponse(r: Response, err: Option<Sql.Error>): Response {
    match err
    case None => r.WithStatus(StatusNoContent)
    case Some(e) =>
      if e.ErrNoRows? then r.WithJson(StatusNotFound, ErrorJson("Not Found"))
      else r.WithJson(StatusInternalServerError, ErrorJson("Internal Server Error"))
  }

  /** A success writes no body; a delete that found nothing is a 404; any other failure a 500. */
  lemma DeleteResponseCases(r: Response, err: Option<Sql.Error>)
    requires !r.written
    ensures err == None <==> DeleteResponse(r, err).status == StatusNoContent
    ensures err == None ==> DeleteResponse(r, err).body == r.body && !DeleteResponse(r, err).written
    ensures err == Some(Sql.ErrNoRows) <==> DeleteResponse(r, err).status == StatusNotFound
    ensures err.Some? && err != Some(Sql.ErrNoRows) <==> DeleteResponse(r, err).status == StatusInternalServerError
  {
  }

  class UserDeleteHandler {
    const repository: UserSqlRepository

    constructor (repository: UserSqlRepository)
      ensures this.repository == repository
    {
      this.repository := repository;
    }

    method RespondToDelete(ctx: Context, err: Option<Sql.Error>)
      modifies ctx`response
      ensures ctx.response == DeleteResponse(old(ctx.response), err)
    {
      if err == Some(Sql.ErrNoRows) {
        ctx.JSON(StatusNotFound, ErrorJson("Not Found"));
        return;
      }
      if err.Some? {
        ctx.JSON(StatusInternalServerError, ErrorJson("Internal Server Error"));
        return;
      }
      ctx.WriteHeader(StatusNoContent);
    }

    /**
     * An unreadable id is a 400; a failed lookup or an unknown id a 404; a user
     * that may not be deleted a 500; otherwise the row of exactly the user
     * found is removed and the response is a 204 with no body. Only that last
     * path changes the store.
     */
    method DeleteUser(ctx: Context, idParam: Option<UUID>, findFault: Option<string>,
                      canDelete: DomainCanDelete, deleteFault: Option<string>)
      returns (panicked: Option<string>)
      modifies ctx`response, repository.db`users
      ensures idParam.None? ==>
        && panicked == None && unchanged(repository.db)
        && ctx.response == old(ctx.response).WithJson(StatusBadRequest, ErrorJson("Invalid User ID"))
      ensures idParam.Some? ==>
        var id := idParam.value;
        var users := old(repository.db.users);
        if findFault.Some? || id !in users then
          && panicked == None && unchanged(repository.db)
          && ctx.response == old(ctx.response).WithJson(StatusNotFound, ErrorJson("Not Found"))
        else if users[id].mobileNumber.None? then
          panicked == Some(NilDereference) && unchanged(repository.db) && ctx.response == old(ctx.response)
        else if canDelete(UserFromRow(id, users[id])).Some? then
          && panicked == None && unchanged(repository.db)
          && ctx.response == old(ctx.response).WithJson(StatusInternalServerError, ErrorJson("Internal Server Error"))
        else if deleteFault.Some? then
          && panicked == None && unchanged(repository.db)
          && ctx.response == DeleteResponse(old(ctx.response), Some(Sql.DriverError(deleteFault.value)))
        else
          && panicked == None && repository.db.users == users - {id}
          && ctx.response == DeleteResponse(old(ctx.response), None)
    {
      if idParam.None? {
        ctx.JSON(StatusBadRequest, ErrorJson("Invalid User ID"));
        return None;
      }
      var command := UserDeleteCommand(idParam.value);
      var user, err, p := repository.FindUserByID(command.id, findFault);
      if p.Some? {
        return p;
      }
      if err.Some? {
        ctx.JSON(StatusNotFound, ErrorJson("Not Found"));
        return None;
      }
      if user.None? {
        ctx.JSON(StatusNotFound, ErrorJson("Not Found"));
        return None;
      }
      var refusal := canDelete(user.value);
      if refusal.Some? {
        ctx.JSON(StatusInternalServerError, ErrorJson("Internal Server Error"));
        return None;
      }
      err, panicked := repository.DeleteUser(user, deleteFault);
      RespondToDelete(ctx, err);
    }
  }

  /**
   * An account registered through sign-in is taken to have a NULL mobile
   * number, since the insert supplies none; this handler then panics on it:
   * no response is written and the account stays.
   */
  method SignedInAccountPanicsOnDelete(id: UUID) returns (panicked: Option<string>, stays: bool, written: bool)
    ensures panicked == Some(NilDereference) && stays && !written
  {
    var db := new Database();
    var params := CreateAuthUserParams("ada@example.org", "Ada", "Lovelace", "github", "42");
    var newID, err := db.CreateAuthUser(params, id, None);
    var repository := new UserSqlRepository(db);
    var handler := new UserDeleteHandler(repository);
    var ctx := new Context(map[]);
    panicked := handler.DeleteUser(ctx, Some(id), None, _ => None, None);
    stays := id in db.users;
    written := ctx.response.written;
  }
}
