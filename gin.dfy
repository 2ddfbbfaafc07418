/**
 * The part of a gin request context the core uses: the request headers, the
 * per-request key map that `Set` and `Get` work on, the abort flag, whether
 * `Next` handed the request on, and the response being written.
 *
 * Response writing follows gin's writer: the first status written sticks, a
 * later write keeps it and only appends its body; `WriteHeader` records a status
 * without writing anything yet.
 */
module Gin {
  import opened Wrappers
  import AuthenticationEntity
  import UserEntity

  /** The dynamic values the core stores under a context key (Go's `any`). */
  datatype Any =
    | AuthUserPointer(pointer: AuthenticationEntity.AuthUser?)   // a *AuthUser, possibly a nil one
    | OtherValue                                                  // a value of any other type

  /** The bodies the core writes. */
  datatype Payload =
    | ErrorJson(error: string)                      // gin.H{"error": message}
    | UserJson(user: Option<UserEntity.User>)       // gin.H{"User": user}
    | Text(text: string)                            // text printed straight to the writer

  datatype Response = Response(status: int, written: bool, headers: map<string, string>, body: seq<Payload>)
  {
    function WithHeader(key: string, value: string): Response {
      this.(headers := headers[key := value])
    }

    /** Records a status; once something has been written the status can no longer change. */
    function WithStatus(code: int): Response {
      if written then this else this.(status := code)
    }

    function WithJson(code: int, payload: Payload): Response {
      var r := WithStatus(code);
      r.(written := true, body := r.body + [payload])
    }

    function WithText(text: string): Response {
      this.(written := true, body := body + [Text(text)])
    }

    function WithRedirect(code: int, location: string): Response {
      var r := WithHeader("Location", location).WithStatus(code);
      r.(written := true)
    }
  }

  /** What a handler starts from: status 200, nothing written. */
  const NewResponse := Response(200, false, map[], [])

  class Context {
    const requestHeaders: map<string, string>
    var response: Response
    var keys: map<string, Any>
    var aborted: bool
    var nextCalled: bool

    constructor (requestHeaders: map<string, string>)
      ensures this.requestHeaders == requestHeaders
      ensures response == NewResponse && keys == map[] && !aborted && !nextCalled
    {
      this.requestHeaders := requestHeaders;
      response := NewResponse;
      keys := map[];
      aborted := false;
      nextCalled := false;
    }

    /** `GetHeader`: the empty string when the request has no such header. */
    function GetHeader(name: string): string {
      if name in requestHeaders then requestHeaders[name] else ""
    }

    method Header(key: string, value: string)
      modifies this`response
      ensures response == old(response).WithHeader(key, value)
    {
      response := response.WithHeader(key, value);
    }

    method Set(key: string, value: Any)
      modifies this`keys
      ensures keys == old(keys)[key := value]
    {
      keys := keys[key := value];
    }

    /** `Next`: the request goes on to the following handlers, which are not modelled. */
    method Next()
      modifies this`nextCalled
      ensures nextCalled
    {
      nextCalled := true;
    }

    method Abort()
      modifies this`aborted
      ensures aborted
    {
      aborted := true;
    }

    method JSON(code: int, payload: Payload)
      modifies this`response
      ensures response == old(response).WithJson(code, payload)
    {
      response := response.WithJson(code, payload);
    }

    method AbortWithStatusJSON(code: int, payload: Payload)
      modifies this`response, this`aborted
      ensures aborted && response == old(response).WithJson(code, payload)
    {
      aborted := true;
      response := response.WithJson(code, payload);
    }

    method Redirect(code: int, location: string)
      modifies this`response
      ensures response == old(response).WithRedirect(code, location)
    {
      response := response.WithRedirect(code, location);
    }

    /** `Writer.WriteHeader`. */
    method WriteHeader(code: int)
      modifies this`response
      ensures response == old(response).WithStatus(code)
    {
      response := response.WithStatus(code);
    }

    /** `fmt.Fprintln(Writer, text)`. */
    method Println(text: string)
      modifies this`response
      ensures response == old(response).WithText(text + "\n")
    {
      response := response.WithText(text + "\n");
    }
  }
}
