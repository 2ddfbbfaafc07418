/**
 * The OAuth callback: once the provider handshake is complete, resolve the
 * account to a user id (registering an account seen for the first time),
 * issue a token for that id and redirect the browser to the front end with it.
 *
 * The handshake itself (`gothic.CompleteUserAuth`) is not modelled: its result
 * is the `completion` parameter. `GenerateJWT` is not part of this model either:
 * it is the `generateJWT` parameter, None standing for an error. The
 * package constant `AuthScope`, declared elsewhere in the package, is the handler's
 * `authScope`.
 */
module SignIn {
  import opened Wrappers
  import opened Uuid
  import Sql
  import opened Goth
  import opened Gin
  import opened Store
  import opened AuthenticationRepository

  const StatusInternalServerError := 500
  const StatusTemporaryRedirect := 307

  /** `2*time.Hour`, in seconds. */
  const TokenTTLSeconds := 2 * 60 * 60

  const CallbackURLPrefix := "http://localhost:4200/callback?token="

  /** The arguments of `GenerateJWT(authUserID, email, AuthScope, 2*time.Hour)`. */
  datatype TokenRequest = TokenRequest(subject: UUID, email: string, scope: string, ttlSeconds: int)

  type TokenGenerator = TokenRequest -> Option<string>

  /** Lines 65-73: a 500 when no token could be made, otherwise a 307 to the front end carrying it. */
  function TokenResponse(r: Response, token: Option<string>): Response {
    match token
    case None => r.WithJson(StatusInternalServerError, ErrorJson("internal server error"))
    case Some(t) => r.WithRedirect(StatusTemporaryRedirect, CallbackURLPrefix + t)
  }

  /** The users row registration creates for a goth account: its names, no mobile number. */
  function RegisteredRow(gothUser: GothUser): UserRow {
    UserRow(gothUser.email, gothUser.firstName, gothUser.lastName, None)
  }

  class SignInHandler {
    const repository: AuthenticationSqlRepository
    const authScope: string

    constructor (repository: AuthenticationSqlRepository, authScope: string)
      ensures this.repository == repository && this.authScope == authScope
    {
      this.repository := repository;
      this.authScope := authScope;
    }

    /** The token request the handler makes for a resolved id. */
    function RequestFor(id: UUID, gothUser: GothUser): TokenRequest {
      TokenRequest(id, gothUser.email, authScope, TokenTTLSeconds)
    }

    /** `registerAuthUser`: on failure it already writes a 500 itself and returns uuid.Nil. */
    method RegisterAuthUser(ctx: Context, gothUser: GothUser, newID: UUID, fault: Option<string>)
      returns (id: UUID, err: Option<Sql.Error>)
      modifies ctx`response, repository.db
      ensures fault.Some? ==> id == Nil && err.Some? && unchanged(repository.db)
      ensures fault.Some? ==> ctx.response == old(ctx.response).WithJson(StatusInternalServerError, ErrorJson("Internal Server Error"))
      ensures fault.None? ==> id == newID && err == None && ctx.response == old(ctx.response)
      ensures fault.None? ==> repository.db.users == old(repository.db.users)[newID := RegisteredRow(gothUser)]
      ensures fault.None? ==>
        repository.db.authProviders == old(repository.db.authProviders)[gothUser.userID := ProviderLink(newID, gothUser.provider)]
    {
      var userID;
      userID, err := repository.RegisterAuthUser(gothUser, newID, fault);
      if err.Some? {
        ctx.JSON(StatusInternalServerError, ErrorJson("Internal Server Error"));
        return Nil, err;
      }
      return userID, None;
    }

    /**
     * Lines 49-73, from the lookup's answer on: `sql.ErrNoRows` registers the
     * account (a failure there writes the 500 twice: once in RegisterAuthUser,
     * once here); any other error is a 500 with no registration and no token;
     * success issues the token for the id found.
     */
    method ContinueSignIn(ctx: Context, gothUser: GothUser, authUserID: UUID, lookupErr: Option<Sql.Error>,
                          newID: UUID, registerFault: Option<string>, generateJWT: TokenGenerator)
      modifies ctx`response, repository.db
      ensures lookupErr == Some(Sql.ErrNoRows) && registerFault.Some? ==>
        && unchanged(repository.db)
        && ctx.response == old(ctx.response)
             .WithJson(StatusInternalServerError, ErrorJson("Internal Server Error"))
             .WithJson(StatusInternalServerError, ErrorJson("Internal Server Error"))
      ensures lookupErr == Some(Sql.ErrNoRows) && registerFault.None? ==>
        && repository.db.users == old(repository.db.users)[newID := RegisteredRow(gothUser)]
        && repository.db.authProviders == old(repository.db.authProviders)[gothUser.userID := ProviderLink(newID, gothUser.provider)]
        && ctx.response == TokenResponse(old(ctx.response), generateJWT(RequestFor(newID, gothUser)))
      ensures lookupErr.Some? && lookupErr != Some(Sql.ErrNoRows) ==>
        && unchanged(repository.db)
        && ctx.response == old(ctx.response).WithJson(StatusInternalServerError, ErrorJson("Internal server error"))
      ensures lookupErr == None ==>
        && unchanged(repository.db)
        && ctx.response == TokenResponse(old(ctx.response), generateJWT(RequestFor(authUserID, gothUser)))
    {
      var id, err := authUserID, lookupErr;
      if err == Some(Sql.ErrNoRows) {
        id, err := RegisterAuthUser(ctx, gothUser, newID, registerFault);
        if err.Some? {
          ctx.JSON(StatusInternalServerError, ErrorJson("Internal Server Error"));
          return;
        }
        IssueToken(ctx, id, gothUser, generateJWT);
        return;
      }
      if err.Some? {
        ctx.JSON(StatusInternalServerError, ErrorJson("Internal server error"));
        return;
      }
      IssueToken(ctx, id, gothUser, generateJWT);
    }

    /** Lines 65-73. */
    method IssueToken(ctx: Context, authUserID: UUID, gothUser: GothUser, generateJWT: TokenGenerator)
      modifies ctx`response
      ensures ctx.response == TokenResponse(old(ctx.response), generateJWT(RequestFor(authUserID, gothUser)))
    {
      var token := generateJWT(RequestFor(authUserID, gothUser));
      if token.None? {
        ctx.JSON(StatusInternalServerError, ErrorJson("internal server error"));
        return;
      }
      ctx.Redirect(StatusTemporaryRedirect, CallbackURLPrefix + token.value);
    }

    /**
     * `SignInCallback` over the corrected lookup: a failed handshake only
     * prints the error; a known account gets a token for its id; an unseen one
     * is registered first and gets a token for the new id.
     */
    method SignInCallback(ctx: Context, completion: Result<GothUser, string>, lookupFault: Option<string>,
                          newID: UUID, registerFault: Option<string>, generateJWT: TokenGenerator)
      modifies ctx`response, repository.db
      ensures completion.Failure? ==>
        unchanged(repository.db) && ctx.response == old(ctx.response).WithText(completion.error + "\n")
      ensures completion.Success? ==>
        var gothUser := completion.value;
        if lookupFault.Some? then
          && unchanged(repository.db)
          && ctx.response == old(ctx.response).WithJson(StatusInternalServerError, ErrorJson("Internal server error"))
        else if gothUser.userID in old(repository.db.authProviders) then
          && unchanged(repository.db)
          && ctx.response == TokenResponse(old(ctx.response),
               generateJWT(RequestFor(old(repository.db.authProviders)[gothUser.userID].userID, gothUser)))
        else if registerFault.Some? then
          && unchanged(repository.db)
          && ctx.response == old(ctx.response)
               .WithJson(StatusInternalServerError, ErrorJson("Internal Server Error"))
               .WithJson(StatusInternalServerError, ErrorJson("Internal Server Error"))
        else
          && repository.db.users == old(repository.db.users)[newID := RegisteredRow(gothUser)]
          && repository.db.authProviders == old(repository.db.authProviders)[gothUser.userID := ProviderLink(newID, gothUser.provider)]
          && ctx.response == TokenResponse(old(ctx.response), generateJWT(RequestFor(newID, gothUser)))
    {
      if completion.Failure? {
        ctx.Println(completion.error);
        return;
      }
      var gothUser := completion.value;
      var authUserID, err := repository.FindUserIDByProvider(gothUser.userID, lookupFault);
      ContinueSignIn(ctx, gothUser, authUserID, err, newID, registerFault, generateJWT);
    }

    /**
     * `SignInCallback` as written, over the lookup that answers (uuid.Nil, nil)
     * for an unseen account: the store is never changed, and an unseen account
     * gets a token whose subject is uuid.Nil.
     */
    method SignInCallbackAsWritten(ctx: Context, completion: Result<GothUser, string>, lookupFault: Option<string>,
                                   newID: UUID, registerFault: Option<string>, generateJWT: TokenGenerator)
      modifies ctx`response, repository.db
      ensures unchanged(repository.db)
      ensures completion.Failure? ==> ctx.response == old(ctx.response).WithText(completion.error + "\n")
      ensures completion.Success? ==>
        var gothUser := completion.value;
        if lookupFault.Some? then
          ctx.response == old(ctx.response).WithJson(StatusInternalServerError, ErrorJson("Internal server error"))
        else
          var subject := if gothUser.userID in repository.db.authProviders
                         then repository.db.authProviders[gothUser.userID].userID else Nil;
          ctx.response == TokenResponse(old(ctx.response), generateJWT(RequestFor(subject, gothUser)))
    {
      if completion.Failure? {
        ctx.Println(completion.error);
        return;
      }
      var gothUser := completion.value;
      var authUserID, err := repository.FindUserIDByProviderAsWritten(gothUser.userID, lookupFault);
      ContinueSignIn(ctx, gothUser, authUserID, err, newID, registerFault, generateJWT);
    }
  }

  /** Two user ids the database could generate. */
  const SomeGeneratedID: UUID := [1, 0, 0, 0, 0, 0, 0, 0, 0, 0, 0, 0, 0, 0, 0, 0]
  const OtherGeneratedID: UUID := [2, 0, 0, 0, 0, 0, 0, 0, 0, 0, 0, 0, 0, 0, 0, 0]

  /** A token generator that shows which subject it was asked for. */
  function ShowSubject(request: TokenRequest): Option<string> {
    Some(if request.subject == Nil then "token-for-nil"
         else if request.subject == SomeGeneratedID then "token-for-42"
         else "token-for-other")
  }

  /**
   * The input that shows the defect: an account signing in for the first time,
   * with nothing failing. As written, nobody is registered and the redirect
   * carries a token whose subject is uuid.Nil.
   */
  method UnseenAccountCounterexample() returns (location: string, registered: nat)
    ensures location == CallbackURLPrefix + "token-for-nil" && registered == 0
  {
    var db := new Database();
    var repository := new AuthenticationSqlRepository(db);
    var handler := new SignInHandler(repository, "scope");
    var ctx := new Context(map[]);
    var gothUser := GothUser("42", "ada@example.org", "Ada", "Lovelace", "github");
    handler.SignInCallbackAsWritten(ctx, Success(gothUser), None, SomeGeneratedID, None, ShowSubject);
    location := ctx.response.headers["Location"];
    registered := |db.users|;
  }

  /**
   * With the corrected lookup the same account is registered once: the first
   * callback creates one user under SomeGeneratedID; the second, offered
   * another fresh id, creates none and is issued the token for the first id.
   * The lookup key is the provider user id alone, so a third callback naming
   * another provider with that id resolves to the same user.
   */
  method NewAccountIsRegisteredOnce() returns (first: string, second: string, third: string, registered: nat)
    ensures first == second == third == CallbackURLPrefix + "token-for-42"
    ensures registered == 1
  {
    var db := new Database();
    var repository := new AuthenticationSqlRepository(db);
    var handler := new SignInHandler(repository, "scope");
    var gothUser := GothUser("42", "ada@example.org", "Ada", "Lovelace", "github");

    var ctx := new Context(map[]);
    handler.SignInCallback(ctx, Success(gothUser), None, SomeGeneratedID, None, ShowSubject);
    first := ctx.response.headers["Location"];
    assert db.users == map[SomeGeneratedID := RegisteredRow(gothUser)];

    ctx := new Context(map[]);
    handler.SignInCallback(ctx, Success(gothUser), None, OtherGeneratedID, None, ShowSubject);
    second := ctx.response.headers["Location"];

    ctx := new Context(map[]);
    handler.SignInCallback(ctx, Success(gothUser.(provider := "gitlab")), None, OtherGeneratedID, None, ShowSubject);
    third := ctx.response.headers["Location"];
    registered := |db.users|;
  }

  /**
   * For every account, store and token generator: two fault-free callbacks
   * for the same account, each offered its own fresh id, are answered alike,
   * with the token for the id the account had before or else the id the first
   * call registered; at most one user is added.
   */
  method SignInTwice(handler: SignInHandler, gothUser: GothUser, id1: UUID, id2: UUID, generateJWT: TokenGenerator)
    returns (first: Response, second: Response)
    modifies handler.repository.db
    ensures var links := old(handler.repository.db.authProviders);
      var firstID := if gothUser.userID in links then links[gothUser.userID].userID else id1;
      first == second == TokenResponse(NewResponse, generateJWT(handler.RequestFor(firstID, gothUser)))
    ensures |handler.repository.db.users| <= |old(handler.repository.db.users)| + 1
  {
    var ctx := new Context(map[]);
    handler.SignInCallback(ctx, Success(gothUser), None, id1, None, generateJWT);
    first := ctx.response;
    ctx := new Context(map[]);
    handler.SignInCallback(ctx, Success(gothUser), None, id2, None, generateJWT);
    second := ctx.response;
  }
}
