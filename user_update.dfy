/**
 * The `PUT /users/{id}` handler: read the id, decode and validate the body,
 * build the command, look the user up, apply the domain update and persist it.
 *
 * `utilities.ReadIDParam` is not part of this model: its result is the
 * `idParam` input. The JSON decoding of the body is the `decoded` input, None
 * standing for a decoding error (a field the body leaves out decodes to "").
 * `(*User).Update` is the `update` parameter; it receives the user the lookup
 * returned, which may be nil. Logging is left out.
 */
module UserUpdate {
  import opened Wrappers
  import opened Uuid
  import opened Store
  import opened UserEntity
  import opened Gin
  import opened UserRepository

  const StatusOK := 200
  const StatusBadRequest := 400
  const StatusNotFound := 404
  const StatusInternalServerError := 500

  datatype UserUpdateApiDto = UserUpdateApiDto(email: string, firstName: string, lastName: string, mobileNumber: string)

  datatype UserUpdateCommand = UserUpdateCommand(
    id: UUID, email: string, firstName: string, lastName: string, mobileNumber: string)

  /**
   * `ValidateApiDto`: the names of the fields that fail their `required` rule,
   * in declaration order; no failures is a nil error. A `required` string
   * fails when it is empty; the mobile number has no rule.
   */
  function ValidateApiDto(dto: UserUpdateApiDto): (failures: seq<string>)
    ensures failures == [] <==> dto.email != "" && dto.firstName != "" && dto.lastName != ""
    ensures "Email" in failures <==> dto.email == ""
    ensures "FirstName" in failures <==> dto.firstName == ""
    ensures "LastName" in failures <==> dto.lastName == ""
    ensures "MobileNumber" !in failures
  {
    (if dto.email == "" then ["Email"] else [])
    + (if dto.firstName == "" then ["FirstName"] else [])
    + (if dto.lastName == "" then ["LastName"] else [])
  }

  /** The mobile number never decides validation. */
  lemma MobileNumberIsOptional(dto: UserUpdateApiDto, mobileNumber: string)
    ensures ValidateApiDto(dto.(mobileNumber := mobileNumber)) == ValidateApiDto(dto)
  {
  }

  /** Lines 84-90: the id from the path, the four fields from the body. */
  function BuildCommand(id: UUID, dto: UserUpdateApiDto): UserUpdateCommand {
    UserUpdateCommand(id, dto.email, dto.firstName, dto.lastName, dto.mobileNumber)
  }

  /** The user the lookup of lines 92-97 returns when it returns no error and does not panic. */
  function Found(users: map<UUID, UserRow>, id: UUID): Option<User>
    requires id in users ==> users[id].mobileNumber.Some?
  {
    if id in users then Some(UserFromRow(id, users[id])) else None
  }

  class UserUpdateHandler {
    const repository: UserSqlRepository

    constructor (repository: UserSqlRepository)
      ensures this.repository == repository
    {
      this.repository := repository;
    }

    /**
     * id, decoding and validation failures are a 400; a lookup error a 404,
     * while an unknown id goes on with a nil user; a domain-update error or a
     * persisting error a 500; success a 200 with the user persisted. Each
     * failure stops the chain, and only the last path changes the store.
     */
    method UpdateUser(ctx: Context, idParam: Option<UUID>, decoded: Option<UserUpdateApiDto>,
                      findFault: Option<string>, update: DomainUpdate, updateFault: Option<string>)
      returns (panicked: Option<string>)
      modifies ctx`response, repository.db`users
      ensures idParam.None? || decoded.None? || ValidateApiDto(decoded.value) != [] ==>
        && panicked == None && unchanged(repository.db)
        && ctx.response == old(ctx.response).WithJson(StatusBadRequest, ErrorJson("Invalid Request Sent"))
      ensures idParam.Some? && decoded.Some? && ValidateApiDto(decoded.value) == [] ==>
        var id := idParam.value;
        var dto := decoded.value;
        var users := old(repository.db.users);
        if findFault.Some? then
          && panicked == None && unchanged(repository.db)
          && ctx.response == old(ctx.response).WithJson(StatusNotFound, ErrorJson("Not Found"))
        else if id in users && users[id].mobileNumber.None? then
          panicked == Some(NilDereference) && unchanged(repository.db) && ctx.response == old(ctx.response)
        else
          var result := update(Found(users, id), dto.email, dto.firstName, dto.lastName, dto.mobileNumber);
          if result.Failure? then
            && panicked == None && unchanged(repository.db)
            && ctx.response == old(ctx.response).WithJson(StatusInternalServerError, ErrorJson("Internal Server Error"))
          else if result.value.None? then
            panicked == Some(NilDereference) && unchanged(repository.db) && ctx.response == old(ctx.response)
          else if updateFault.Some? || result.value.value.id !in users then
            && panicked == None && unchanged(repository.db)
            && ctx.response == old(ctx.response).WithJson(StatusInternalServerError, ErrorJson("Internal Server Error"))
          else
            && panicked == None
            && repository.db.users == users[result.value.value.id := RowFor(result.value.value)]
            && ctx.response == old(ctx.response).WithJson(StatusOK, UserJson(result.value))
    {
      if idParam.None? {
        ctx.JSON(StatusBadRequest, ErrorJson("Invalid Request Sent"));
        return None;
      }
      if decoded.None? {
        ctx.JSON(StatusBadRequest, ErrorJson("Invalid Request Sent"));
        return None;
      }
      var dto := decoded.value;
      if ValidateApiDto(dto) != [] {
        ctx.JSON(StatusBadRequest, ErrorJson("Invalid Request Sent"));
        return None;
      }
      var command := BuildCommand(idParam.value, dto);
      var user, err, p := repository.FindUserByID(command.id, findFault);
      if p.Some? {
        return p;
      }
      if err.Some? {
        ctx.JSON(StatusNotFound, ErrorJson("Not Found"));
        return None;
      }
      var result := update(user, command.email, command.firstName, command.lastName, command.mobileNumber);
      if result.Failure? {
        ctx.JSON(StatusInternalServerError, ErrorJson("Internal Server Error"));
        return None;
      }
      user, err, p := repository.UpdateUser(result.value, updateFault);
      if p.Some? {
        return p;
      }
      if err.Some? {
        ctx.JSON(StatusInternalServerError, ErrorJson("Internal Server Error"));
        return None;
      }
      ctx.JSON(StatusOK, UserJson(user));
      return None;
    }
  }

  /**
   * Unlike the delete handler, an unknown id is not a 404 here: the nil user
   * reaches the domain update, and with one that returns its receiver unchanged
   * the persisting step dereferences it and panics. Nothing is written.
   */
  method UnknownIdReachesDomainUpdate(id: UUID) returns (panicked: Option<string>, written: bool)
    ensures panicked == Some(NilDereference) && !written
  {
    var db := new Database();
    var repository := new UserSqlRepository(db);
    var handler := new UserUpdateHandler(repository);
    var ctx := new Context(map[]);
    var dto := UserUpdateApiDto("ada@example.org", "Ada", "Lovelace", "");
    var keepReceiver: DomainUpdate := (user, email, firstName, lastName, mobileNumber) => Success(user);
    panicked := handler.UpdateUser(ctx, Some(id), Some(dto), None, keepReceiver, None);
    written := ctx.response.written;
  }
}
