/**
 * backend/middleware/common.js: the response `errorHandler` builds from a thrown
 * error, and the `notFound` fallback. The environment (the `prodEnv` setting and
 * whether `NODE_ENV` is development) and the request are parameters.
 */
module Middleware {
  import opened Wrappers
  import opened Errors

  /** The fields `errorHandler` destructures from a thrown value; an absent one is `None`. */
  datatype Thrown = Thrown(
    statusCode: Option<int>,
    message: Option<string>,
    debug: Option<Debug>,
    stack: Option<string>,
    expose: Option<bool>)

  /** What `err.debug || err.stack` yields. */
  datatype DebugField = Details(debug: Debug) | Trace(stack: string)

  /** The JSON body `data`; an `undefined` member is left out of the JSON. */
  datatype Body = Body(message: Option<string>, debug: Option<DebugField>)

  /** The status and, when one is sent, the JSON body. */
  datatype Response = Response(status: int, body: Option<Body>)

  datatype Env = Env(prodEnv: bool, development: bool)

  /** An `HttpException` as the handler reads it. */
  function FromException(e: HttpException): (t: Thrown)
    ensures t.statusCode == Some(e.statusCode) && t.message == Some(e.message)
    ensures t.debug == e.debug && t.expose == Some(e.expose)
  {
    Thrown(Some(e.statusCode), Some(e.message), e.debug, None, Some(e.expose))
  }

  /** `t` occurs in `s` at index `j`. */
  predicate OccursAt(s: string, t: string, j: int) {
    0 <= j && j + |t| <= |s| && s[j..j + |t|] == t
  }

  lemma OccursShift(s: string, t: string, j: int)
    requires |s| >= 1 && j >= 1
    ensures OccursAt(s, t, j) <==> OccursAt(s[1..], t, j - 1)
  {
    if j + |t| <= |s| {
      assert s[j..j + |t|] == s[1..][j - 1..j - 1 + |t|];
    }
  }

  /** `s.indexOf(t)`: the first index at which `t` occurs, or -1. */
  function IndexOf(s: string, t: string): (i: int)
    ensures i == -1 || OccursAt(s, t, i)
    ensures i >= 0 ==> forall j :: 0 <= j < i ==> !OccursAt(s, t, j)
    ensures i == -1 ==> forall j :: !OccursAt(s, t, j)
    decreases |s|
  {
    if |s| < |t| then -1
    else if s[..|t|] == t then 0
    else
      var k := IndexOf(s[1..], t);
      assert forall j :: j >= 1 ==> (OccursAt(s, t, j) <==> OccursAt(s[1..], t, j - 1)) by {
        forall j | j >= 1 ensures OccursAt(s, t, j) <==> OccursAt(s[1..], t, j - 1) {
          OccursShift(s, t, j);
        }
      }
      if k == -1 then -1 else k + 1
  }

  /** JavaScript's `~x` on a 32-bit integer. */
  function BitNot(x: int): int {
    -x - 1
  }

  /** The path holds `/api/` somewhere. */
  ghost predicate ApiPath(path: string) {
    exists j :: OccursAt(path, "/api/", j)
  }

  lemma ApiTest(path: string)
    ensures BitNot(IndexOf(path, "/api/")) != 0 <==> ApiPath(path)
  {
  }

  /** `errorHandler(err, req, res)`: the status and the body it sends. */
  function ErrorResponse(err: Thrown, path: string, env: Env): (r: Response)
    ensures r.status == err.statusCode.GetOr(500)
    ensures r.body.Some? <==> ApiPath(path)
    ensures r.body.Some? && env.prodEnv ==>
              r.body.value.message == (match KindOfCode(r.status) case Some(k) => Some(Name(k)) case None => None)
    ensures r.body.Some? && !env.prodEnv ==> r.body.value.message == err.message
    ensures r.body.Some? ==> (r.body.value.debug.Some? <==> env.development && (err.debug.Some? || err.stack.Some?))
    ensures r.body.Some? && r.body.value.debug.Some? && err.debug.Some? ==> r.body.value.debug == Some(Details(err.debug.value))
  {
    ApiTest(path);
    var statusCode := err.statusCode.GetOr(500);
    var message := if env.prodEnv then (match KindOfCode(statusCode) case Some(k) => Some(Name(k)) case None => None)
                   else err.message;
    var debug := if !env.development then None
                 else if err.debug.Some? then Some(Details(err.debug.value))
                 else if err.stack.Some? then Some(Trace(err.stack.value))
                 else None;
    if BitNot(IndexOf(path, "/api/")) != 0 then Response(statusCode, Some(Body(message, debug)))
    else Response(statusCode, None)
  }

  /** The `expose` flag changes nothing in the response. */
  lemma ExposeIgnored(err: Thrown, path: string, env: Env, expose: Option<bool>)
    ensures ErrorResponse(err.(expose := expose), path, env) == ErrorResponse(err, path, env)
  {
  }

  /**
   * In production an exception of kind `k` answers its code with only the kind's
   * name on an API path, whatever message and debug data it carried.
   */
  lemma ProductionHidesDetails(k: Kind, message: Option<string>, payload: Payload, path: string)
    requires ApiPath(path)
    ensures var r := ErrorResponse(FromException(Raise(k, message, payload)), path, Env(true, false));
            r == Response(Code(k), Some(Body(Some(Name(k)), None)))
  {
    var _ := KindOfCode(Code(k));
  }

  /** An error without a status code is answered 500, named `INTERNAL_SERVER_ERROR` in production. */
  lemma MissingStatusIs500(err: Thrown, path: string)
    requires err.statusCode.None? && ApiPath(path)
    ensures ErrorResponse(err, path, Env(true, false)) == Response(500, Some(Body(Some("INTERNAL_SERVER_ERROR"), None)))
  {
  }

  /** What `req.is` holds: Express installs a method there; the handler compares it with a string. */
  datatype ReqIs = IsFunction | IsText(s: string)

  /** `notFound(req, res)`: throw NOT_FOUND when `req.is` is the string `application/json`, otherwise answer 410. */
  function NotFound(reqIs: ReqIs): (r: Result<Response, HttpException>)
    ensures r.Failure? <==> reqIs == IsText("application/json")
    ensures r.Failure? ==> r.error.statusCode == 404
    ensures r.Success? ==> r.value == Response(410, None)
  {
    if reqIs == IsText("application/json") then Failure(Raise(Errors.NotFound, None, EMPTY_PAYLOAD))
    else Success(Response(410, None))
  }

  /** With Express's `req.is`, which is a function and never equal to a string, every unmatched route answers 410. */
  lemma UnmatchedRouteIsGone()
    ensures NotFound(IsFunction) == Success(Response(410, None))
  {
  }
}
