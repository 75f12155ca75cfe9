/**
 * The JSON response helper of `anon/Modules/ResponseHelper.php`
 * (`Anon_ResponseHelper`). Every helper sets the HTTP status, echoes one JSON
 * object and exits; here each returns that terminal reply as a value. An
 * argument the caller leaves out is `None` and takes the helper's default.
 */
module ResponseHelper {
  import opened Common

  /** The status set by `http_response_code` and the JSON object echoed, keys in order. */
  datatype Reply = Reply(status: int, body: seq<(string, Value)>)

  const DefaultSuccessMessage: string := "操作成功"
  const DefaultErrorMessage: string := "操作失败"
  const DefaultPageMessage: string := "获取数据成功"
  const MethodNotAllowedMessage: string := "请求方法不被允许"
  const AllowedMethodsLabel: string := "，允许的方法："
  const DefaultValidationMessage: string := "参数验证失败"
  const DefaultUnauthorizedMessage: string := "未授权访问"
  const DefaultForbiddenMessage: string := "禁止访问"
  const DefaultNotFoundMessage: string := "资源未找到"
  const DefaultServerErrorMessage: string := "服务器内部错误"

  /** `success`/`message`, then `data` only when it is not null. */
  function Envelope(ok: bool, message: string, data: Value): (r: seq<(string, Value)>)
    ensures KeysOf(r) == ["success", "message"] + (if data.VNull? then [] else ["data"])
    ensures r[0] == ("success", VBool(ok)) && r[1] == ("message", VStr(message))
    ensures !data.VNull? ==> |r| == 3 && r[2] == ("data", data)
  {
    [("success", VBool(ok)), ("message", VStr(message))] + (if data.VNull? then [] else [("data", data)])
  }

  /** `success($data, $message, $httpCode)`: defaults to status 200. */
  function Success(data: Value, message: Option<string>, httpCode: Option<int>): (r: Reply)
    ensures r.status == httpCode.GetOr(200)
    ensures |r.body| == if data.VNull? then 2 else 3
    ensures KeysOf(r.body) == ["success", "message"] + (if data.VNull? then [] else ["data"])
    ensures r.body[0].1 == VBool(true) && r.body[1].1 == VStr(message.GetOr(DefaultSuccessMessage))
    ensures !data.VNull? ==> r.body[2].1 == data
  {
    Reply(httpCode.GetOr(200), Envelope(true, message.GetOr(DefaultSuccessMessage), data))
  }

  /** `error($message, $data, $httpCode)`: defaults to status 400. */
  function Error(message: Option<string>, data: Value, httpCode: Option<int>): (r: Reply)
    ensures r.status == httpCode.GetOr(400)
    ensures |r.body| == if data.VNull? then 2 else 3
    ensures KeysOf(r.body) == ["success", "message"] + (if data.VNull? then [] else ["data"])
    ensures r.body[0].1 == VBool(false) && r.body[1].1 == VStr(message.GetOr(DefaultErrorMessage))
    ensures !data.VNull? ==> r.body[2].1 == data
  {
    Reply(httpCode.GetOr(400), Envelope(false, message.GetOr(DefaultErrorMessage), data))
  }

  /** `paginated`: `data` and `pagination` are present even when null. */
  function Paginated(data: Value, pagination: Value, message: Option<string>, httpCode: Option<int>): (r: Reply)
    ensures r.status == httpCode.GetOr(200)
    ensures KeysOf(r.body) == ["success", "message", "data", "pagination"]
    ensures r.body[0].1 == VBool(true) && r.body[1].1 == VStr(message.GetOr(DefaultPageMessage))
    ensures r.body[2].1 == data && r.body[3].1 == pagination
  {
    Reply(httpCode.GetOr(200), [("success", VBool(true)), ("message", VStr(message.GetOr(DefaultPageMessage))),
                                ("data", data), ("pagination", pagination)])
  }

  /**
   * `methodNotAllowed`: status 405, no `data`; the allowed methods are named
   * only when the argument is not PHP-empty (so neither `""` nor `"0"`).
   */
  function MethodNotAllowed(allowedMethods: Option<string>): (r: Reply)
    ensures r.status == 405 && |r.body| == 2 && r.body[0].1 == VBool(false)
    ensures allowedMethods.None? || IsFalsyString(allowedMethods.value) ==>
              r.body[1].1 == VStr(MethodNotAllowedMessage)
    ensures allowedMethods.Some? && !IsFalsyString(allowedMethods.value) ==>
              r.body[1].1 == VStr(MethodNotAllowedMessage + AllowedMethodsLabel + allowedMethods.value)
  {
    var allowed := allowedMethods.GetOr("");
    var message := if !IsFalsyString(allowed) then MethodNotAllowedMessage + AllowedMethodsLabel + allowed
                   else MethodNotAllowedMessage;
    Error(Some(message), VNull, Some(405))
  }

  /** `validationError`: status 422, the errors as `data` when there are any. */
  function ValidationError(message: Option<string>, errors: Value): (r: Reply)
    ensures r.status == 422 && |r.body| >= 2 && r.body[0].1 == VBool(false)
    ensures r.body[1].1 == VStr(message.GetOr(DefaultValidationMessage))
    ensures |r.body| == 3 <==> !errors.VNull?
    ensures |r.body| == 3 ==> r.body[2].1 == errors
  {
    Error(Some(message.GetOr(DefaultValidationMessage)), errors, Some(422))
  }

  /** `unauthorized`: status 401, no `data`. */
  function Unauthorized(message: Option<string>): (r: Reply)
    ensures r.status == 401 && |r.body| == 2 && r.body[0].1 == VBool(false)
    ensures r.body[1].1 == VStr(message.GetOr(DefaultUnauthorizedMessage))
  {
    Error(Some(message.GetOr(DefaultUnauthorizedMessage)), VNull, Some(401))
  }

  /** `forbidden`: status 403, no `data`. */
  function Forbidden(message: Option<string>): (r: Reply)
    ensures r.status == 403 && |r.body| == 2 && r.body[0].1 == VBool(false)
    ensures r.body[1].1 == VStr(message.GetOr(DefaultForbiddenMessage))
  {
    Error(Some(message.GetOr(DefaultForbiddenMessage)), VNull, Some(403))
  }

  /** `notFound`: status 404, no `data`. */
  function NotFound(message: Option<string>): (r: Reply)
    ensures r.status == 404 && |r.body| == 2 && r.body[0].1 == VBool(false)
    ensures r.body[1].1 == VStr(message.GetOr(DefaultNotFoundMessage))
  {
    Error(Some(message.GetOr(DefaultNotFoundMessage)), VNull, Some(404))
  }

  /** `serverError`: status 500; the details reach the client only when `ANON_DEBUG` is defined and truthy. */
  function ServerError(message: Option<string>, data: Value, debug: bool): (r: Reply)
    ensures r.status == 500 && |r.body| >= 2 && r.body[0].1 == VBool(false)
    ensures r.body[1].1 == VStr(message.GetOr(DefaultServerErrorMessage))
    ensures |r.body| == 3 <==> debug && !data.VNull?
    ensures |r.body| == 3 ==> r.body[2].1 == data
  {
    Error(Some(message.GetOr(DefaultServerErrorMessage)), if debug then data else VNull, Some(500))
  }

  /** The classes `handleException` tells apart (by `instanceof`, so subclasses included). */
  datatype ExceptionClass = InvalidArgument | UnauthorizedAccess | NotFoundClass | OtherThrowable

  /** What `handleException` reads from the exception. */
  datatype Thrown = Thrown(cls: ExceptionClass, message: string, file: string, line: int, trace: string)

  /** The HTTP status `handleException` picks for an exception class. */
  function ExceptionStatus(cls: ExceptionClass): (code: int)
    ensures code in {400, 401, 404, 500}
    ensures code == 500 <==> cls == OtherThrowable
  {
    match cls
    case InvalidArgument => 400
    case UnauthorizedAccess => 401
    case NotFoundClass => 404
    case OtherThrowable => 500
  }

  /**
   * `handleException`: a truthy custom message replaces the exception's
   * message; the status follows the class; in debug mode the file, line and
   * trace go out as `data`.
   */
  function HandleException(e: Thrown, customMessage: Option<string>, debug: bool): (r: Reply)
    ensures r.status == ExceptionStatus(e.cls)
    ensures |r.body| == if debug then 3 else 2
    ensures customMessage.Some? && !IsFalsyString(customMessage.value) ==> r.body[1].1 == VStr(customMessage.value)
    ensures customMessage.None? || IsFalsyString(customMessage.value) ==> r.body[1].1 == VStr(e.message)
    ensures r.body[0].1 == VBool(false)
    ensures debug ==> r.body[2].1 == VArray([("file", VStr(e.file)), ("line", VInt(e.line)), ("trace", VStr(e.trace))])
  {
    var message := if customMessage.Some? && !IsFalsyString(customMessage.value) then customMessage.value else e.message;
    var data := if debug then VArray([("file", VStr(e.file)), ("line", VInt(e.line)), ("trace", VStr(e.trace))])
                else VNull;
    Error(Some(message), data, Some(ExceptionStatus(e.cls)))
  }

  /** `success` and `error` differ exactly in the status default and the `success` flag. */
  lemma SuccessErrorMirror(data: Value, m: string, code: int)
    ensures Success(data, Some(m), Some(code)).body[1..] == Error(Some(m), data, Some(code)).body[1..]
    ensures Success(data, Some(m), Some(code)).body[0].1 == VBool(true)
    ensures Error(Some(m), data, Some(code)).body[0].1 == VBool(false)
  {
  }
}
