/**
 * The session gate: `Authenticate` runs on every request and binds the caller
 * (the AnonymousUser sentinel, or the user a bearer token names) under the
 * "authUser" context key; `RequireAuthUser` runs after it on protected routes
 * and turns the sentinel away.
 *
 * Token verification (`VerifyJWTToken`) and UUID parsing (`uuid.Parse`) are
 * collaborators whose code is not part of this model; they are parameters, a
 * failure being None. A Go panic is modelled as a returned message.
 */
module AuthenticationMiddleware {
  import opened Wrappers
  import opened Uuid
  import opened Strings
  import opened Gin
  import opened AuthenticationEntity
  import opened Store
  import opened AuthenticationRepository

  const AuthUserContextKey := "authUser"
  const StatusUnauthorized := 401

  const InvalidAuthorization := "invalid authorization"
  const InvalidToken := "invalid token"
  const InvalidUserIDInToken := "invalid user id in token"
  const UnableToFindAuthUser := "unable to find auth user"
  const MustBeLoggedIn := "you must be logged in to access this route"

  /** The panics: the two in GetAuthUser, and the failed `claims["sub"].(string)` assertion. */
  const MissingUserInRequest := "missing user in request"
  const InvalidAuthUserType := "invalid auth user type in context"
  const SubjectNotString := "interface conversion: interface {} is not string"

  /** A JWT claim value; only strings matter to the gate. */
  datatype ClaimValue = ClaimString(text: string) | ClaimOther
  type Claims = map<string, ClaimValue>

  /** `VerifyJWTToken`: the claims of a valid token, None for any defect. */
  type TokenVerifier = string -> Option<Claims>

  /** `uuid.Parse`. */
  type UUIDParser = string -> Option<UUID>

  // ---------------------------------------------------------------- header shape

  /** Lines 48-54: split on every space; exactly two parts, the first exactly "Bearer". */
  function ParseAuthorization(header: string): Option<string> {
    var parts := Split(header, ' ');
    if |parts| != 2 || parts[0] != "Bearer" then None else Some(parts[1])
  }

  /**
   * The `Authorization: Bearer <token>` form of section 2.1 of RFC 6750, as this
   * gate reads it: the scheme is matched case-sensitively, followed by exactly
   * one space, and the token may be empty but contains no space.
   */
  predicate IsBearerForm(header: string) {
    |header| >= 7 && header[..7] == "Bearer " && ' ' !in header[7..]
  }

  /** The split-based check is exactly the Bearer form, and it yields what follows the space. */
  lemma ParseAuthorizationIsBearerForm(header: string)
    ensures ParseAuthorization(header) == if IsBearerForm(header) then Some(header[7..]) else None
  {
    var parts := Split(header, ' ');
    if IsBearerForm(header) {
      assert header == "Bearer" + [' '] + header[7..];
      SplitAtFirstSeparator("Bearer", header[7..], ' ');
      SplitWithoutSeparator(header[7..], ' ');
      assert parts == ["Bearer", header[7..]];
    }
    if |parts| == 2 && parts[0] == "Bearer" {
      JoinSplit(header, ' ');
      SplitPartsHaveNoSeparator(header, ' ');
      assert parts[1..] == [parts[1]];
      assert header == "Bearer" + [' '] + parts[1];
      assert header[..7] == "Bearer " && header[7..] == parts[1];
    }
  }

  /** The shape check passes iff the header is "Bearer " followed by a token without spaces. */
  lemma ParseAuthorizationAccepts(header: string, token: string)
    ensures ParseAuthorization(header) == Some(token) <==> header == "Bearer " + token && ' ' !in token
  {
    ParseAuthorizationIsBearerForm(header);
    if header == "Bearer " + token {
      assert header[..7] == "Bearer " && header[7..] == token;
    }
    if IsBearerForm(header) {
      assert header == header[..7] + header[7..];
    }
  }

  // ---------------------------------------------------------------- the decision

  /** Where the header checks of Authenticate lead, before the repository is asked. */
  datatype HeaderOutcome =
    | Anonymous               // no header: bind the sentinel and go on
    | Rejected(message: string)  // 401 with {"error": message}, aborted
    | Panics(message: string)
    | FindUser(id: UUID)      // look the token's subject up in the repository

  /** Lines 54-65: verify the token, read its subject, parse it as a UUID. */
  function CheckToken(token: string, verifyJWT: TokenVerifier, parseUUID: UUIDParser): HeaderOutcome {
    match verifyJWT(token)
    case None => Rejected(InvalidToken)
    case Some(claims) =>
      if "sub" !in claims || !claims["sub"].ClaimString? then Panics(SubjectNotString)
      else
        match parseUUID(claims["sub"].text)
        case None => Rejected(InvalidUserIDInToken)
        case Some(id) => FindUser(id)
  }

  /** Lines 40-65. */
  function CheckHeader(header: string, verifyJWT: TokenVerifier, parseUUID: UUIDParser): HeaderOutcome {
    if header == "" then Anonymous
    else
      match ParseAuthorization(header)
      case None => Rejected(InvalidAuthorization)
      case Some(token) => CheckToken(token, verifyJWT, parseUUID)
  }

  /**
   * The gate by cases: an empty header is anonymous, a header that is not of the
   * Bearer form is rejected whatever the verifier would say, and a Bearer header
   * hands exactly its token to the verifier.
   */
  lemma CheckHeaderCases(header: string, verifyJWT: TokenVerifier, parseUUID: UUIDParser)
    ensures CheckHeader(header, verifyJWT, parseUUID) ==
      if header == "" then Anonymous
      else if IsBearerForm(header) then CheckToken(header[7..], verifyJWT, parseUUID)
      else Rejected(InvalidAuthorization)
  {
    if header != "" {
      ParseAuthorizationIsBearerForm(header);
    }
  }

  /** Only the empty header is anonymous: a header that is present is never waved through as anonymous. */
  lemma AnonymousIffNoHeader(header: string, verifyJWT: TokenVerifier, parseUUID: UUIDParser)
    ensures CheckHeader(header, verifyJWT, parseUUID) == Anonymous <==> header == ""
  {
  }

  /** Another scheme is rejected before any verification. */
  lemma WrongSchemeIsRejected(verifyJWT: TokenVerifier, parseUUID: UUIDParser)
    ensures CheckHeader("Token xyz", verifyJWT, parseUUID) == Rejected(InvalidAuthorization)
  {
    CheckHeaderCases("Token xyz", verifyJWT, parseUUID);
    assert "Token xyz"[0] != "Bearer "[0];
  }

  /** The scheme is compared case-sensitively. */
  lemma LowerCaseSchemeIsRejected(verifyJWT: TokenVerifier, parseUUID: UUIDParser)
    ensures CheckHeader("bearer xyz", verifyJWT, parseUUID) == Rejected(InvalidAuthorization)
  {
    CheckHeaderCases("bearer xyz", verifyJWT, parseUUID);
    assert "bearer xyz"[0] != "Bearer "[0];
  }

  /** Two spaces give three parts, so the header is rejected. */
  lemma DoubleSpaceIsRejected(verifyJWT: TokenVerifier, parseUUID: UUIDParser)
    ensures CheckHeader("Bearer  xyz", verifyJWT, parseUUID) == Rejected(InvalidAuthorization)
  {
    CheckHeaderCases("Bearer  xyz", verifyJWT, parseUUID);
    assert "Bearer  xyz"[7..][0] == ' ';
  }

  /** "Bearer " with nothing after it passes the shape check and hands the empty token on. */
  lemma EmptyTokenIsVerified(verifyJWT: TokenVerifier, parseUUID: UUIDParser)
    ensures CheckHeader("Bearer ", verifyJWT, parseUUID) == CheckToken("", verifyJWT, parseUUID)
  {
    CheckHeaderCases("Bearer ", verifyJWT, parseUUID);
    assert "Bearer "[..7] == "Bearer " && "Bearer "[7..] == "";
  }

  // ---------------------------------------------------------------- context binding

  /** `GetAuthUser`: the bound *AuthUser, or the panic message. */
  function GetAuthUser(ctx: Context): (r: Result<AuthUser?, string>)
    reads ctx
    ensures AuthUserContextKey !in ctx.keys ==> r == Failure(MissingUserInRequest)
    ensures AuthUserContextKey in ctx.keys && ctx.keys[AuthUserContextKey] == OtherValue ==> r == Failure(InvalidAuthUserType)
    ensures r.Success? <==> AuthUserContextKey in ctx.keys && ctx.keys[AuthUserContextKey].AuthUserPointer?
    ensures r.Success? ==> ctx.keys[AuthUserContextKey] == AuthUserPointer(r.value)
  {
    if AuthUserContextKey !in ctx.keys then Failure(MissingUserInRequest)
    else
      match ctx.keys[AuthUserContextKey]
      case AuthUserPointer(p) => Success(p)
      case OtherValue => Failure(InvalidAuthUserType)
  }

  /** `SetAuthUser`: GetAuthUser then returns exactly the pointer stored, nil included. */
  method SetAuthUser(ctx: Context, authUser: AuthUser?)
    modifies ctx`keys
    ensures ctx.keys == old(ctx.keys)[AuthUserContextKey := AuthUserPointer(authUser)]
    ensures GetAuthUser(ctx) == Success(authUser)
  {
    ctx.Set(AuthUserContextKey, AuthUserPointer(authUser));
  }

  class AuthenticationMiddleware {
    const repository: AuthenticationSqlRepository
    const globals: Globals

    constructor (repository: AuthenticationSqlRepository, globals: Globals)
      ensures this.repository == repository && this.globals == globals
    {
      this.repository := repository;
      this.globals := globals;
    }

    /**
     * `Authenticate`. `fault` is the failure, if any, of the repository's
     * database query. Every path, rejections and panics included, first sets
     * `Vary: Authorization`. A rejection binds no user. An id the repository
     * does not know binds a nil user and the request goes on.
     */
    method Authenticate(ctx: Context, verifyJWT: TokenVerifier, parseUUID: UUIDParser, fault: Option<string>)
      returns (panicked: Option<string>)
      modifies ctx
      ensures ctx.response.headers == old(ctx.response.headers)["Vary" := "Authorization"]
      ensures var outcome := CheckHeader(ctx.GetHeader("Authorization"), verifyJWT, parseUUID);
        var vary := old(ctx.response).WithHeader("Vary", "Authorization");
        match outcome
        case Anonymous =>
          && panicked == None && ctx.response == vary
          && ctx.keys == old(ctx.keys)[AuthUserContextKey := AuthUserPointer(globals.anonymousUser)]
          && ctx.nextCalled && ctx.aborted == old(ctx.aborted)
        case Rejected(message) =>
          && panicked == None && ctx.response == vary.WithJson(StatusUnauthorized, ErrorJson(message))
          && ctx.keys == old(ctx.keys) && ctx.aborted && ctx.nextCalled == old(ctx.nextCalled)
        case Panics(message) =>
          && panicked == Some(message) && ctx.response == vary
          && ctx.keys == old(ctx.keys) && ctx.aborted == old(ctx.aborted) && ctx.nextCalled == old(ctx.nextCalled)
        case FindUser(id) =>
          if fault.Some? then
            && panicked == None && ctx.response == vary.WithJson(StatusUnauthorized, ErrorJson(UnableToFindAuthUser))
            && ctx.keys == old(ctx.keys) && ctx.aborted && ctx.nextCalled == old(ctx.nextCalled)
          else
            && panicked == None && ctx.response == vary
            && ctx.nextCalled && ctx.aborted == old(ctx.aborted)
            && AuthUserContextKey in ctx.keys && ctx.keys[AuthUserContextKey].AuthUserPointer?
            && ctx.keys == old(ctx.keys)[AuthUserContextKey := ctx.keys[AuthUserContextKey]]
            && var bound := ctx.keys[AuthUserContextKey].pointer;
               if id !in repository.db.users then bound == null
               else
                 && bound != null && fresh(bound) && bound.id == id
                 && bound.email == repository.db.users[id].email
                 && bound.firstName == repository.db.users[id].firstName
                 && bound.lastName == repository.db.users[id].lastName
                 && bound.mobileNumber == repository.db.users[id].mobileNumber
    {
      ctx.Header("Vary", "Authorization");
      var authHeader := ctx.GetHeader("Authorization");

      if authHeader == "" {
        SetAuthUser(ctx, globals.anonymousUser);
        ctx.Next();
        return None;
      }

      var token := ParseAuthorization(authHeader);
      if token.None? {
        ctx.AbortWithStatusJSON(StatusUnauthorized, ErrorJson(InvalidAuthorization));
        return None;
      }

      var claims := verifyJWT(token.value);
      if claims.None? {
        ctx.AbortWithStatusJSON(StatusUnauthorized, ErrorJson(InvalidToken));
        return None;
      }

      if "sub" !in claims.value || !claims.value["sub"].ClaimString? {
        return Some(SubjectNotString);
      }
      var authUserID := parseUUID(claims.value["sub"].text);
      if authUserID.None? {
        ctx.AbortWithStatusJSON(StatusUnauthorized, ErrorJson(InvalidUserIDInToken));
        return None;
      }

      var authUser, err := repository.FindAuthUserByID(authUserID.value, fault);
      if err.Some? {
        ctx.AbortWithStatusJSON(StatusUnauthorized, ErrorJson(UnableToFindAuthUser));
        return None;
      }
      SetAuthUser(ctx, authUser);
      ctx.Next();
      return None;
    }

    /**
     * `RequireAuthUser`: panics when GetAuthUser does; rejects with 401 and
     * aborts iff the bound pointer is the sentinel; any other bound pointer,
     * nil included, goes on.
     */
    method RequireAuthUser(ctx: Context) returns (panicked: Option<string>)
      modifies ctx
      ensures ctx.keys == old(ctx.keys)
      ensures old(GetAuthUser(ctx)).Failure? ==>
        && panicked == Some(old(GetAuthUser(ctx)).error)
        && ctx.response == old(ctx.response) && ctx.aborted == old(ctx.aborted) && ctx.nextCalled == old(ctx.nextCalled)
      ensures old(GetAuthUser(ctx)).Success? && IsAnonymous(old(GetAuthUser(ctx)).value, globals) ==>
        && panicked == None && ctx.aborted && ctx.nextCalled == old(ctx.nextCalled)
        && ctx.response == old(ctx.response).WithJson(StatusUnauthorized, ErrorJson(MustBeLoggedIn))
      ensures old(GetAuthUser(ctx)).Success? && !IsAnonymous(old(GetAuthUser(ctx)).value, globals) ==>
        && panicked == None && ctx.nextCalled
        && ctx.response == old(ctx.response) && ctx.aborted == old(ctx.aborted)
    {
      var user := GetAuthUser(ctx);
      if user.Failure? {
        return Some(user.error);
      }
      if IsAnonymous(user.value, globals) {
        ctx.JSON(StatusUnauthorized, ErrorJson(MustBeLoggedIn));
        ctx.Abort();
        return None;
      }
      ctx.Next();
      return None;
    }
  }

  /**
   * A request without an Authorization header to a route behind both gates:
   * Authenticate admits it as anonymous and RequireAuthUser then answers 401.
   */
  method AnonymousRequestToProtectedRoute() returns (status: int, body: seq<Payload>, aborted: bool)
    ensures status == StatusUnauthorized && body == [ErrorJson(MustBeLoggedIn)] && aborted
  {
    var db := new Database();
    var repository := new AuthenticationSqlRepository(db);
    var globals := new Globals();
    var middleware := new AuthenticationMiddleware(repository, globals);
    var ctx := new Context(map[]);
    var panicked := middleware.Authenticate(ctx, _ => None, _ => None, None);
    assert GetAuthUser(ctx) == Success(globals.anonymousUser);
    panicked := middleware.RequireAuthUser(ctx);
    status, body, aborted := ctx.response.status, ctx.response.body, ctx.aborted;
  }
}
