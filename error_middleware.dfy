/** The error middleware: `errorHandler` maps an error to a status and a
    message by a chain of checks in which the last match wins, and
    `notFound` turns an unmatched path into a 404 error. */
module ErrorMiddleware {
  import opened Common

  const GenericMessage := "服务器错误，请稍后重试"
  const CastMessage := "找不到该资源"
  const BadTokenMessage := "无效的令牌"
  const ExpiredMessage := "令牌已过期，请重新登录"
  const PathPrefix := "找不到请求的路径: "
  const ExistsSuffix := " 已存在"

  /** The parts of an error the handler reads: its `name`, its `code`, the
      messages of `errors` (a validation error's per-field errors, in
      order), the keys of `keyValue` (absent unless the driver sets it) and
      the stack. */
  datatype Failure = Failure(
    name: string,
    code: Option<int>,
    fieldMessages: seq<string>,
    keyValue: Option<seq<string>>,
    message: string,
    stack: string)

  /** The JSON answer: status, message, and the stack in development only. */
  datatype ErrorReply = ErrorReply(status: int, message: string, stack: Option<string>)

  /** `values.join(sep)`. */
  function Join(values: seq<string>, sep: string): (r: string)
    ensures values == [] ==> r == ""
    ensures |values| == 1 ==> r == values[0]
  {
    if values == [] then ""
    else if |values| == 1 then values[0]
    else values[0] + sep + Join(values[1..], sep)
  }

  /** Joining one more message appends the separator and that message. */
  lemma {:induction false} JoinAppend(values: seq<string>, sep: string, v: string)
    requires values != []
    ensures Join(values + [v], sep) == Join(values, sep) + sep + v
  {
    if |values| == 1 {
      assert (values + [v])[1..] == [v];
    } else {
      assert (values + [v])[1..] == values[1..] + [v];
      JoinAppend(values[1..], sep, v);
    }
  }

  /** `${Object.keys(err.keyValue)[0]} 已存在`, with an empty `keyValue`
      interpolating as "undefined". */
  function DuplicateMessage(keys: seq<string>): string
  {
    (if keys == [] then "undefined" else keys[0]) + ExistsSuffix
  }

  /** What the client receives, by priority: a response already marked 404
      always gives the path message; then an expired token, a bad token, a
      cast error, a duplicate key and a validation error, in that order;
      anything else is 500 with the generic message. `None` when the handler
      itself throws: a duplicate-key error without `keyValue` makes
      `Object.keys` fail before any later check runs. */
  function Expected(err: Failure, resStatus: int, url: string, env: string): (r: Option<ErrorReply>)
  {
    if err.code == Some(11000) && err.keyValue.None? then None
    else
      var stack := if env == "development" then Some(err.stack) else None;
      Some(
        if resStatus == 404 then ErrorReply(404, PathPrefix + url, stack)
        else if err.name == "TokenExpiredError" then ErrorReply(401, ExpiredMessage, stack)
        else if err.name == "JsonWebTokenError" then ErrorReply(401, BadTokenMessage, stack)
        else if err.name == "CastError" then ErrorReply(404, CastMessage, stack)
        else if err.code == Some(11000) then ErrorReply(400, DuplicateMessage(err.keyValue.value), stack)
        else if err.name == "ValidationError" then ErrorReply(400, Join(err.fieldMessages, ", "), stack)
        else ErrorReply(500, GenericMessage, stack))
  }

  /** `errorHandler`: the default 500, then each matching check overwrites
      the status and the message in turn. */
  method ErrorHandler(err: Failure, resStatus: int, url: string, env: string)
    returns (r: Option<ErrorReply>)
    ensures r == Expected(err, resStatus, url, env)
  {
    var statusCode := 500;
    var errorMessage := GenericMessage;
    if err.name == "ValidationError" {
      statusCode := 400;
      errorMessage := Join(err.fieldMessages, ", ");
    }
    if err.code == Some(11000) {
      if err.keyValue.None? {
        return None;
      }
      statusCode := 400;
      errorMessage := DuplicateMessage(err.keyValue.value);
    }
    if err.name == "CastError" {
      statusCode := 404;
      errorMessage := CastMessage;
    }
    if err.name == "JsonWebTokenError" {
      statusCode := 401;
      errorMessage := BadTokenMessage;
    }
    if err.name == "TokenExpiredError" {
      statusCode := 401;
      errorMessage := ExpiredMessage;
    }
    if resStatus == 404 {
      statusCode := 404;
      errorMessage := PathPrefix + url;
    }
    r := Some(ErrorReply(statusCode, errorMessage, if env == "development" then Some(err.stack) else None));
  }

  /** The status each kind of error maps to when the response is not
      already a 404, and the stack rule. */
  lemma StatusByKind(err: Failure, resStatus: int, url: string, env: string)
    requires !(err.code == Some(11000) && err.keyValue.None?)
    ensures Expected(err, resStatus, url, env).Some?
    ensures var r := Expected(err, resStatus, url, env).value;
            && (resStatus == 404 ==> r.status == 404 && r.message == PathPrefix + url)
            && (resStatus != 404 && err.name in {"TokenExpiredError", "JsonWebTokenError"} ==> r.status == 401)
            && (resStatus != 404 && err.name == "CastError" ==> r.status == 404)
            && (resStatus != 404 && err.name == "ValidationError" && err.code != Some(11000) ==>
                  r == ErrorReply(400, Join(err.fieldMessages, ", "), r.stack))
            && (resStatus != 404 && err.code != Some(11000)
                && err.name !in {"ValidationError", "CastError", "JsonWebTokenError", "TokenExpiredError"} ==>
                  r.status == 500 && r.message == GenericMessage)
            && (r.stack.Some? <==> env == "development")
  {
  }

  /** `notFound`: the response is marked 404 and an error naming the path is
      passed on. */
  function NotFound(url: string, stack: string): (e: (int, Failure))
    ensures e.0 == 404 && e.1.message == PathPrefix + url
  {
    (404, Failure("Error", None, [], None, PathPrefix + url, stack))
  }

  /** An unmatched path, passed through `notFound` and then `errorHandler`,
      reaches the client as 404 with the path message. */
  lemma NotFoundThenHandled(url: string, stack: string, env: string)
    ensures var (status, err) := NotFound(url, stack);
            Expected(err, status, url, env) ==
              Some(ErrorReply(404, PathPrefix + url, if env == "development" then Some(stack) else None))
  {
  }
}
