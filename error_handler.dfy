/**
 * The application's error classification (src/library/errorHandler.ts):
 * `HttpCode`, `AppError` and the `ErrorHandler` dispatch that turns an error
 * into a response or, when there is no response, into a process exit.
 */
module ErrorHandling {

  import opened Wrappers
  import opened Http

  /** The numeric enum `HttpCode`. */
  datatype HttpCode = Ok | NoContent | BadRequest | Unauthorized | NotFound | InternalServerError {

    /** The enum member's number. */
    function Value(): (v: int)
      ensures v in {200, 204, 400, 401, 404, 500}
      ensures (v == 500) == InternalServerError?
    {
      match this
      case Ok => 200
      case NoContent => 204
      case BadRequest => 400
      case Unauthorized => 401
      case NotFound => 404
      case InternalServerError => 500
    }
  }

  /** The enum's reverse mapping, `HttpCode[v]`: the member whose number is `v`, if any. */
  function HttpCodeOf(v: int): (r: Option<HttpCode>)
    ensures r.Some? ==> r.value.Value() == v
    ensures r.None? <==> v !in {200, 204, 400, 401, 404, 500}
  {
    if v == 200 then Some(Ok)
    else if v == 204 then Some(NoContent)
    else if v == 400 then Some(BadRequest)
    else if v == 401 then Some(Unauthorized)
    else if v == 404 then Some(NotFound)
    else if v == 500 then Some(InternalServerError)
    else None
  }

  /** Each member is found again from its number, so no two members share one. */
  lemma HttpCodeRoundTrip(c: HttpCode)
    ensures HttpCodeOf(c.Value()) == Some(c)
  {
  }

  /** The constructor's argument `AppErrorArgs`; `None` is an omitted optional property. */
  datatype AppErrorArgs = AppErrorArgs(
    name: Option<string>,
    httpCode: HttpCode,
    description: string,
    isOperational: Option<bool>)

  /**
   * What a `catch` can see: a plain `Error` (from a library or from `new Error(...)`)
   * or an `AppError`. Both are immutable once built.
   */
  datatype Error =
    | PlainError(message: string)
    | AppError(name: string, httpCode: HttpCode, message: string, isOperational: bool)

  /** `new AppError(args)`. */
  function NewAppError(args: AppErrorArgs): (e: Error)
    ensures e.AppError?
    ensures e.httpCode == args.httpCode && e.message == args.description
    // an omitted or empty name is falsy, so the name falls back to 'Error'
    ensures args.name == None || args.name == Some("") ==> e.name == "Error"
    ensures args.name.Some? && args.name.value != "" ==> e.name == args.name.value
    // the field initialiser is `true`; only an explicitly given flag overrides it
    ensures e.isOperational <==> args.isOperational != Some(false)
  {
    var name := match args.name
      case Some(n) => if n == "" then "Error" else n
      case None => "Error";
    var operational := match args.isOperational
      case Some(b) => b
      case None => true;
    AppError(name, args.httpCode, args.description, operational)
  }

  /** `ErrorHandler.isTrustedError`. */
  function IsTrustedError(e: Error): (trusted: bool)
    ensures trusted <==> e.AppError? && e.isOperational
    ensures e.PlainError? ==> !trusted
  {
    match e
    case AppError(_, _, _, operational) => operational
    case PlainError(_) => false
  }

  /** The three ways `handleError` can go. */
  datatype Handling =
    | Trusted(status: int, message: string)  // handleTrustedError: status and `{message}` sent
    | Critical                               // handleCriticalError with a response: status 500 only
    | Exit(code: int)                        // handleCriticalError without a response: log and exit

  /** The branch `handleError(error, response)` takes; `hasResponse` says whether `response` is given. */
  function Dispatch(e: Error, hasResponse: bool): (h: Handling)
    ensures h.Trusted? <==> hasResponse && e.AppError? && e.isOperational
    ensures h.Exit? <==> !hasResponse
    ensures h.Trusted? ==> h.status == e.httpCode.Value() && h.message == e.message
    ensures h.Exit? ==> h.code == 0
  {
    if IsTrustedError(e) && hasResponse then Trusted(e.httpCode.Value(), e.message)
    else if hasResponse then Critical
    else Exit(0)
  }

  /** What a handling does to the response. */
  function Respond(h: Handling, before: Reply): (after: Reply)
    ensures h.Trusted? ==> after.status == h.status && after.sent
    ensures h.Critical? ==> after.status == 500
    ensures !h.Trusted? ==> after.sent == before.sent && after.body == before.body
    ensures after.headers == before.headers
  {
    match h
    case Trusted(status, message) => before.(status := status, body := Json(map["message" := message]), sent := true)
    case Critical => before.(status := HttpCode.InternalServerError.Value())
    case Exit(_) => before
  }

  /** `handleTrustedError`: answers with the error's status and `{message: description}`. */
  method HandleTrustedError(e: Error, response: Response)
    requires e.AppError?
    modifies response
    ensures response.View() == old(response.View()).(status := e.httpCode.Value(), body := Json(map["message" := e.message]), sent := true)
  {
    response.Status(e.httpCode.Value());
    response.SendJson(map["message" := e.message]);
  }

  /**
   * `handleCriticalError`: with a response, sets status 500 and sends nothing;
   * without one, logs and exits with code 0, returned here as `exitCode`.
   */
  method HandleCriticalError(e: Error, response: Response?) returns (exitCode: Option<int>)
    modifies response
    ensures response != null ==> response.View() == old(response.View()).(status := 500) && exitCode == None
    ensures response == null ==> exitCode == Some(0)
  {
    if response != null {
      response.Status(HttpCode.InternalServerError.Value());
      exitCode := None;
    } else {
      exitCode := Some(0);
    }
  }

  /** `handleError`: the response and exit code follow `Dispatch`. */
  method HandleError(e: Error, response: Response?) returns (exitCode: Option<int>)
    modifies response
    ensures response != null ==> response.View() == Respond(Dispatch(e, true), old(response.View()))
    ensures exitCode == if response == null then Some(0) else None
  {
    if IsTrustedError(e) && response != null {
      HandleTrustedError(e, response);
      exitCode := None;
    } else {
      exitCode := HandleCriticalError(e, response);
    }
  }

  /** An error with a response is answered with its own status exactly when it is trusted, and with 500 otherwise. */
  lemma ResponseStatusOfError(e: Error, before: Reply)
    ensures var after := Respond(Dispatch(e, true), before);
      && (IsTrustedError(e) ==> after.status == e.httpCode.Value() && after.body == Json(map["message" := e.message]) && after.sent)
      && (!IsTrustedError(e) ==> after.status == 500 && after.body == before.body && after.sent == before.sent)
  {
  }

  /** A plain `Error` is never trusted: with a response it always gets status 500, never its own or a success code. */
  lemma PlainErrorIsCritical(message: string, before: Reply)
    ensures !IsTrustedError(PlainError(message))
    ensures Respond(Dispatch(PlainError(message), true), before).status == 500
  {
  }

  /** Without a response every error, trusted or not, exits with code 0 and nothing is answered. */
  lemma NoResponseExits(e: Error, before: Reply)
    ensures Dispatch(e, false) == Exit(0)
    ensures Respond(Dispatch(e, false), before) == before
  {
  }

  /**
   * An `AppError` built without an explicit `isOperational: false` is trusted,
   * so `handleError` with a response answers with the status and description it was built with.
   */
  lemma DefaultAppErrorIsAnswered(args: AppErrorArgs, before: Reply)
    requires args.isOperational != Some(false)
    ensures IsTrustedError(NewAppError(args))
    ensures Respond(Dispatch(NewAppError(args), true), before)
      == before.(status := args.httpCode.Value(), body := Json(map["message" := args.description]), sent := true)
  {
  }
}
