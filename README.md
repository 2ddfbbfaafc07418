# catalyst API core, modelled in Dafny

This project models the request-decision core of the catalyst API, a Go web
service built on gin. The core has three parts:

- **The session gate.** `Authenticate` reads the `Authorization` header and
  binds the caller under the `authUser` context key. With no header the
  caller is the `AnonymousUser` sentinel. With a bearer token the caller is
  the user the token names. `RequireAuthUser` then turns the sentinel away
  from protected routes.
- **The OAuth sign-in callback.** It resolves a provider account to a user
  id, registering an account it has not seen before. It then issues a token
  and redirects to the front end.
- **The user store and two handlers.** The store is the users table seen as
  domain users. The `DELETE /users/{id}` and `PUT /users/{id}` handlers are
  early-exit chains that map each failure to a status code.

Modules follow the Go files: `AuthenticationEntity`,
`AuthenticationMiddleware`, `AuthenticationRepository`, `SignIn`,
`UserRepository`, `UserDelete` and `UserUpdate`.

Supporting modules hold what the core relies on:

- `Store`: the shared database, as two maps behind a `Database` class, one
  per table the core touches.
- `Gin`: the parts of a gin context the core uses, as a `Context` class over
  a `Response` value.
- `Strings`: Go's `strings.Split`, with its join round trip.
- `Uuid`, `Sql`, `Goth`, `UserEntity`, `Wrappers`: small value types.

What is changed in place is a class with `modifies` frames:

- the database tables;
- the context's key map, abort flag, `Next` flag and response.

`AuthUser` is a class too, but only for its identity: its fields are `const`
and nothing changes them. `IsAnonymous` compares a pointer with the sentinel
that `Globals` holds, so two users with equal fields can still differ.

What is only computed is a function: the header shape check, the header
decision, validation and the response mappings.

Collaborators outside the core are parameters of the methods that use them:

- `VerifyJWTToken`, `uuid.Parse` and `GenerateJWT` are functions that return
  None on failure.
- `(*User).Update` and `(*User).CanDelete` are functions too.
- `gothic.CompleteUserAuth`, `utilities.ReadIDParam` and the JSON decoding of
  the request body are input values.
- A database driver failure is a `fault` input.
- An id the database generates is a `newID` input.
- A Go runtime panic is a returned message (`panicked`).

A valid token whose subject is an unknown user id is not rejected.
`FindAuthUserByID` answers (nil, nil) for an unknown id, so `Authenticate`
binds a nil user, calls `Next` and writes no 401. The Authenticate row states
that behaviour.

## Model

| member | source | states |
|---|---|---|
| Strings.Split | internal/authentication/authentication_middleware.go:48 | Go's `strings.Split` on one separator character; it always yields at least one part. Its properties are stated by Strings.JoinSplit, Strings.SplitPartsHaveNoSeparator, Strings.SplitWithoutSeparator and Strings.SplitAtFirstSeparator |
| Strings.JoinSplit | internal/authentication/authentication_middleware.go:48 | Joining the parts of `strings.Split` with the separator gives back the original header, so the split loses nothing |
| AuthenticationMiddleware.ParseAuthorization | internal/authentication/authentication_middleware.go:48-54 | The header shape check; AuthenticationMiddleware.ParseAuthorizationIsBearerForm and AuthenticationMiddleware.ParseAuthorizationAccepts state what it accepts |
| AuthenticationMiddleware.CheckToken | internal/authentication/authentication_middleware.go:54-65 | Token verification, the `sub` string assertion and UUID parsing, in that order. AuthenticationMiddleware.AuthenticationMiddleware.Authenticate states the response each outcome leads to |
| AuthenticationMiddleware.CheckHeader | internal/authentication/authentication_middleware.go:40-65 | The header decision before the repository is asked; AuthenticationMiddleware.CheckHeaderCases and AuthenticationMiddleware.AnonymousIffNoHeader state it by cases |
| AuthenticationMiddleware.ParseAuthorizationIsBearerForm | internal/authentication/authentication_middleware.go:48-54 | The split-on-every-space check accepts exactly the headers of the form "Bearer " + a token without spaces, and yields the text after the first space |
| AuthenticationMiddleware.ParseAuthorizationAccepts | internal/authentication/authentication_middleware.go:48-54 | The shape check yields token t iff the header equals "Bearer " + t and t contains no space; t may be empty |
| AuthenticationMiddleware.CheckHeaderCases | internal/authentication/authentication_middleware.go:40-65 | An empty header is anonymous. A non-Bearer header is rejected with "invalid authorization" whatever the verifier says. A Bearer header hands exactly its token to verification |
| AuthenticationMiddleware.AnonymousIffNoHeader | internal/authentication/authentication_middleware.go:42-46 | The caller is treated as anonymous iff the header is empty; a header that is present never leads to the sentinel |
| AuthenticationMiddleware.WrongSchemeIsRejected | internal/authentication/authentication_middleware.go:49-52 | "Token xyz" is rejected with "invalid authorization" before any verification |
| AuthenticationMiddleware.LowerCaseSchemeIsRejected | internal/authentication/authentication_middleware.go:49-52 | The scheme is matched case-sensitively: "bearer xyz" is rejected |
| AuthenticationMiddleware.DoubleSpaceIsRejected | internal/authentication/authentication_middleware.go:48-52 | "Bearer  xyz" splits into three parts and is rejected |
| AuthenticationMiddleware.EmptyTokenIsVerified | internal/authentication/authentication_middleware.go:48-55 | "Bearer " passes the shape check and hands the empty token to verification |
| AuthenticationMiddleware.GetAuthUser | internal/authentication/authentication_middleware.go:23-35 | Panics with "missing user in request" when nothing is bound under "authUser", and with "invalid auth user type in context" when the value there is not an *AuthUser. Otherwise returns exactly the bound pointer, nil included |
| AuthenticationMiddleware.SetAuthUser | internal/authentication/authentication_middleware.go:19-21 | Stores the pointer under "authUser", changing no other key. GetAuthUser then returns exactly that pointer, nil included |
| AuthenticationMiddleware.AuthenticationMiddleware.Authenticate | internal/authentication/authentication_middleware.go:37-75 | Sets `Vary: Authorization` on every path. No header: binds the sentinel and calls Next. A malformed header, a failed verification, an unparsable subject or a repository error: 401 with the matching message, aborted, no user bound. A subject that is not a string: panic. Otherwise binds the repository's answer and calls Next: a fresh user with the row's fields, or nil for an unknown id |
| AuthenticationMiddleware.AuthenticationMiddleware.RequireAuthUser | internal/authentication/authentication_middleware.go:77-89 | Panics when GetAuthUser does. Answers 401 "you must be logged in to access this route" and aborts iff the bound pointer is the sentinel. Any other pointer, nil included, goes on via Next. Keys unchanged |
| AuthenticationMiddleware.AnonymousRequestToProtectedRoute | internal/authentication/authentication_middleware.go:79-84 | A request with no Authorization header, sent to a route behind both gates, ends as 401 with exactly the "must be logged in" body and is aborted |
| AuthenticationEntity.Globals.constructor | internal/authentication/authentication_entity.go:17 | The sentinel is one fresh zero-valued AuthUser |
| AuthenticationEntity.Create | internal/authentication/authentication_entity.go:23-30 | Returns a fresh user with the three names copied, a zero id, a nil mobile number and a nil error |
| AuthenticationEntity.IsAnonymous | internal/authentication/authentication_entity.go:19-21 | Pointer identity with the sentinel; AuthenticationEntity.CreatedUserIsNotAnonymous and AuthenticationEntity.NilIsNotAnonymous state that equal fields and nil do not make a user anonymous |
| AuthenticationEntity.CreatedUserIsNotAnonymous | internal/authentication/authentication_entity.go:19-30 | A user Create returns is never anonymous, even when built from empty names and so field-for-field equal to the sentinel |
| AuthenticationEntity.NilIsNotAnonymous | internal/authentication/authentication_entity.go:19-21 | A nil pointer is not anonymous; IsAnonymous compares identity with the sentinel |
| AuthenticationEntity.AuthProvider.Create | internal/authentication/authentication_entity.go:40-47 | Builds the provider link; AuthenticationEntity.AuthProviderCreateIgnoresReceiver states its result |
| AuthenticationEntity.AuthProviderCreateIgnoresReceiver | internal/authentication/authentication_entity.go:40-47 | The result does not depend on the receiver. It copies user id, provider and provider user id, leaves id and creation time zero, and returns a nil error |
| AuthenticationRepository.AuthenticationSqlRepository.FindUserIDByProviderAsWritten | internal/authentication/authentication_repository.go:33-43 | Looks up by provider user id alone. Found: that id and nil. No rows: uuid.Nil and nil, the same signal as a success. Another failure: uuid.Nil and the error. It never reports ErrNoRows |
| AuthenticationRepository.AuthenticationSqlRepository.FindUserIDByProvider | internal/authentication/authentication_repository.go:33-43 | The corrected lookup: as written, except that no rows is reported as ErrNoRows |
| AuthenticationRepository.AuthenticationSqlRepository.FindAuthUserByID | internal/authentication/authentication_repository.go:45-64 | No row: (nil, nil). Another failure: (nil, err). Found: a fresh user whose id, email, names and mobile number equal the row's |
| AuthenticationRepository.AuthenticationSqlRepository.RegisterAuthUser | internal/authentication/authentication_repository.go:66-81 | Inserts the user and its provider link from the goth fields, unchanged, and returns the new id. On failure returns uuid.Nil and changes nothing |
| Store.Database.CreateAuthUser | internal/authentication/authentication_repository.go:75-78 | The user row and the provider link are inserted together, or neither is. The row's mobile number is taken to be NULL, since the insert's parameters carry none |
| Store.Database.AddUser | internal/domain/user/user_repository.go:64-68 | Inserts one row under the generated id, or nothing on failure |
| Store.Database.UpdateUser | internal/domain/user/user_repository.go:80-85 | Overwrites the row of that id if it exists and reports 1 row affected, else 0 and no change |
| Store.Database.DeleteUser | internal/domain/user/user_repository.go:93-97 | Removes exactly the row of that id and reports 1 row affected if it existed, else 0 |
| SignIn.TokenResponse | internal/authentication/sign_in.go:66-73 | The answer to the token generator's result: a 500 "internal server error" without a token, a 307 to the callback URL with one. SignIn.SignInHandler.IssueToken is proved to write it |
| SignIn.SignInHandler.RegisterAuthUser | internal/authentication/sign_in.go:76-83 | On failure, writes a 500 "Internal Server Error" and returns uuid.Nil with the error, store unchanged. On success, returns the new id, writes nothing, and both tables gain the account |
| SignIn.SignInHandler.IssueToken | internal/authentication/sign_in.go:65-73 | Asks for a token for that id, the provider email, the scope and a 7200-second lifetime. A failure is a 500 "internal server error" with no redirect. A success is a 307 to exactly the callback URL followed by the token |
| SignIn.SignInHandler.ContinueSignIn | internal/authentication/sign_in.go:48-73 | ErrNoRows registers the account. A registration failure writes the 500 JSON twice and issues no token. Any other lookup error is a 500 "Internal server error", nothing registered. Success registers nothing and issues the token for the id found |
| SignIn.SignInHandler.SignInCallback | internal/authentication/sign_in.go:38-74 | A failed handshake only prints the error, changing no store. A known account gets a token for its linked id. An unseen one is registered, and the token is for the new id |
| SignIn.SignInHandler.SignInCallbackAsWritten | internal/authentication/sign_in.go:38-74 | With the lookup as written the store never changes, and an unseen account gets a token whose subject is uuid.Nil |
| SignIn.UnseenAccountCounterexample | internal/authentication/sign_in.go:48-49 | As written, a first sign-in with nothing failing registers nobody and redirects with the token for uuid.Nil |
| SignIn.NewAccountIsRegisteredOnce | internal/authentication/sign_in.go:48-57 | With the corrected lookup, the first sign-in of an account registers it under the first generated id. A second sign-in, offered another fresh id, creates no user and gets the token for the first id. So does a third naming another provider with the same provider user id. Exactly one user exists |
| SignIn.SignInTwice | internal/authentication/sign_in.go:48-73 | For every account, store, pair of generated ids and token generator: two fault-free sign-ins of one account get the same answer. That answer is the token for the account's existing id, or else for the id the first call registered. At most one user is added |
| UserRepository.UserFromRowForIsIdentity | internal/domain/user/user_repository.go:44-52 | Reading back the row stored for a user gives the same user |
| UserRepository.UserSqlRepository.FindUserByID | internal/domain/user/user_repository.go:34-55 | No row: (nil, nil). Another failure: (nil, err). A row with a NULL mobile number panics on the dereference. Otherwise the row as a user |
| UserRepository.UserSqlRepository.RegisterUser | internal/domain/user/user_repository.go:57-69 | A nil user panics. Otherwise inserts the user's fields, the mobile number as a non-NULL value, and returns the generated id, or uuid.Nil and the error on failure |
| UserRepository.UserSqlRepository.UpdateUser | internal/domain/user/user_repository.go:71-90 | A nil user panics. A driver error: (nil, err). No row affected: (nil, ErrNoRows), store unchanged. Otherwise the row is overwritten with a non-NULL mobile number, and the same user value is returned |
| UserRepository.UserSqlRepository.DeleteUser | internal/domain/user/user_repository.go:92-103 | A nil user panics. Removes only that user's row. Returns ErrNoRows when no row was affected and nil when one was |
| UserRepository.UpdateThenFind | internal/domain/user/user_repository.go:71-90 | After an update of an existing user, a lookup of its id returns exactly that user |
| UserRepository.RegisterThenFind | internal/domain/user/user_repository.go:57-69 | After a registration, a lookup of the returned id returns the user under that id |
| UserDelete.DeleteResponse | internal/domain/user/user_delete.go:68-78 | The answer to the delete's error; UserDelete.DeleteResponseCases states it by cases, in both directions |
| UserDelete.DeleteResponseCases | internal/domain/user/user_delete.go:68-78 | A successful delete is a 204 with no body. ErrNoRows is a 404. Any other error is a 500. Each direction holds |
| UserDelete.UserDeleteHandler.RespondToDelete | internal/domain/user/user_delete.go:68-78 | Writes the response DeleteResponse maps the delete's error to |
| UserDelete.UserDeleteHandler.DeleteUser | internal/domain/user/user_delete.go:39-79 | An unreadable id is a 400 "Invalid User ID". A lookup error or an unknown id is a 404, with no CanDelete and no delete. A refusal by CanDelete is a 500. A delete failure is a 500. Otherwise exactly the row of the user found is removed and the answer is a 204. Only that last path changes the store |
| UserDelete.SignedInAccountPanicsOnDelete | internal/domain/user/user_repository.go:49 | Taking an account registered through sign-in to have a NULL mobile number, deleting it makes the handler panic: nothing is written and the row stays |
| UserUpdate.ValidateApiDto | internal/domain/user/user_update.go:23-33 | Validation passes iff email, first name and last name are all non-empty. Each empty required field is reported. The mobile number is never reported |
| UserUpdate.MobileNumberIsOptional | internal/domain/user/user_update.go:27 | Changing the mobile number never changes the validation result |
| UserUpdate.BuildCommand | internal/domain/user/user_update.go:84-90 | The command takes the path id and the body's four fields unchanged; UserUpdate.UserUpdateHandler.UpdateUser states that the domain update receives exactly those fields |
| UserUpdate.UserUpdateHandler.UpdateUser | internal/domain/user/user_update.go:59-114 | Steps run in the order id, decode, validate, find, domain update, persist. Each failure stops the chain and only success changes the store. Id, decode and validation failures are a 400 "Invalid Request Sent". Only a lookup error is a 404: an unknown id reaches the domain update as a nil user. The command fields come from the body unchanged. A domain-update or persist error is a 500. Success is a 200 with the persisted user |
| UserUpdate.UnknownIdReachesDomainUpdate | internal/domain/user/user_update.go:92-99 | An unknown id is not short-circuited. With a domain update that keeps its nil receiver, persisting panics and nothing is written |

## Left out

- The OAuth handshake through goth and gothic: `CompleteUserAuth`, `BeginAuthHandler` and `Logout`. These are network calls to the provider and session-cookie handling. `SignInCallback` takes the handshake's result, an account or an error text, as an input. The copying of the provider path parameter into the request context is not modelled.
- Cookie-store and provider registration in `authentication.go`: configuration of foreign libraries.
- `GenerateJWT` and `VerifyJWTToken` are not part of this model. Their signing, clock and expiry behaviour are left out; they are parameters that either give a result or fail.
- `AuthScope` is not part of this model. Its value is the sign-in handler's `authScope` field.
- `utilities.ReadIDParam` and `(*User).Update` / `(*User).CanDelete` are not part of this model. They are an input value and parameters.
- The SQL text and the sqlc and pgx plumbing. The tables are maps keyed by user id and by provider user id.
- The driver's own "no rows" error is not modelled. pgx reports no rows with its own error value, which compares unequal to `sql.ErrNoRows` under `==`. The model takes a missing row to be reported as `sql.ErrNoRows`, as every `err == sql.ErrNoRows` test in the code expects.
- The single-row queries are assumed to answer the row if the key is in the table, `sql.ErrNoRows` if it is not, and the driver's error when the `fault` input is set. `Store.Lookup` encodes that assumption; it is not proved from the queries, whose text is not part of this model.
- The mobile number of the users row `CreateAuthUser` inserts is assumed to be NULL. The insert's SQL is not part of this model; the assumption rests on `CreateAuthUserParams` having no mobile number and on the column being read as a `*string`. `UserDelete.SignedInAccountPanicsOnDelete` depends on it.
- Generated ids are assumed fresh. `Store.Database.CreateAuthUser` and `Store.Database.AddUser` take the `newID` input as given and would overwrite a row already stored under it, where a primary-keyed table would refuse the insert.
- Timestamps: `CreatedAt` and `UpdatedAt` of users, and the creation time of provider links.
- gin beyond status, headers, body, abort, `Next` and the key map: case-insensitive header lookup, Content-Type, the handler chain after `Next`, and panic recovery. A panic ends the model's method with a message and no further writes.
- Logging through `log.Logger`.
- Concurrent requests. Each model method runs alone against the store.
- `user_detail.go`, the route and middleware wiring, process start-up, and `config/config.go`'s environment reading.
- AuthenticationMiddleware.AuthenticationMiddleware.Authenticate: the panic message for a non-string `sub` claim is a fixed text, not Go's exact runtime message, which would name the dynamic type.

## Findings

| source | as written | input that shows it | evidently intended | confidence | as-written member | corrected member |
|---|---|---|---|---|---|---|
| internal/authentication/authentication_repository.go:36-38 | `FindUserIDByProvider` turns "no rows" into (uuid.Nil, nil). The callback's `err == sql.ErrNoRows` test at sign_in.go:49 then never holds. An account signing in for the first time is not registered and gets a token whose subject is uuid.Nil | A first sign-in of provider user id "42" against an empty store, with no failure | Report no rows as `sql.ErrNoRows`, so that the account is registered and the token names the new user | not executed; assumes the query reports no rows as `sql.ErrNoRows`. If it reports pgx's own error instead, the repository passes that on and the callback answers 500, still without registering | SignIn.SignInHandler.SignInCallbackAsWritten, SignIn.UnseenAccountCounterexample | AuthenticationRepository.AuthenticationSqlRepository.FindUserIDByProvider, SignIn.NewAccountIsRegisteredOnce |
