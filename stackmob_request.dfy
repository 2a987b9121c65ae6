/**
 * A StackMob API request: the mutable build state of one HTTP call against
 * the fixed StackMob endpoint, how each verb turns that state into a URI and
 * an optional body, and how the outcome reaches the request's callback.
 *
 * The libraries the request leans on (Object.toString, Gson, the Apache
 * HttpClient URI and form encoders, and the HTTP transport) are not modelled
 * here; they are the functions of a `Collaborators` value that the
 * operations take as a parameter.
 */
module StackMob {
  import opened NameValuePairs

  datatype Option<T> = None | Some(value: T)

  /** A computation that either gives a value or fails with an exception's message. */
  datatype Result<T> = Ok(value: T) | Err(message: string)

  /** The single host every request goes to. */
  const UrlFmt := "api.mob1.stackmob.com"
  const SecureScheme := "https"
  const RegularScheme := "http"
  /** The port handed to URI construction: -1, the scheme's default. */
  const DefaultPort := -1

  /**
   * The request's verb. `Unlisted` stands for any further constant the verb
   * enumeration may declare, which none of the four branches handles.
   */
  datatype HttpVerb = GET | POST | PUT | DELETE | Unlisted

  /** A Java object held by the request, seen only through its collaborators. */
  datatype Obj = Obj(handle: nat)

  /** The arguments of one URI construction: scheme, host, port, path, query, fragment. */
  datatype UriParts = UriParts(
    scheme: string, host: string, port: int, path: string,
    query: Option<string>, fragment: Option<string>)

  /** A request body: form-encoded parameters, or a JSON text. */
  datatype Entity = Form(pairs: seq<Pair>) | Json(body: string)

  /** One call handed to the transport. */
  datatype HttpCall = HttpCall(verb: HttpVerb, uri: UriParts, entity: Option<Entity>)

  /** One call of the request's callback: success with a response (possibly null), or failure. */
  datatype Event = Success(response: Option<string>) | Failure(message: string)

  /** The code outside the request that it calls. */
  datatype Collaborators = Collaborators(
    // Object.toString of a parameter value
    toText: Obj -> string,
    // Gson.toJson of the request object
    toJson: Obj -> string,
    // URLEncodedUtils.format of the pairs, in UTF-8
    formatQuery: seq<Pair> -> string,
    // the message of the URISyntaxException that URI construction throws, if it does
    uriError: UriParts -> Option<string>,
    // the message of the UnsupportedEncodingException that building the entity throws, if it does
    entityError: Entity -> Option<string>,
    // HttpHelper.doGet, doPost, doPut and doDelete: the response text, or a StackMobException's message
    transport: HttpCall -> Result<string>)

  /** Java's string conversion of a possibly null string, as `+` applies it. */
  function StringValueOf(s: Option<string>): string
  {
    match s
    case None => "null"
    case Some(t) => t
  }

  /** The callback call that delivers the outcome of a send. */
  function Delivery(response: Result<string>): (e: Event)
    ensures e.Success? <==> response.Ok?
    ensures response.Ok? ==> e.response == Some(response.value)
    ensures response.Err? ==> e.message == response.message
  {
    match response
    case Ok(text) => Success(Some(text))
    case Err(message) => Failure(message)
  }

  class Request {
    /** The user object name of the session the request was built with (possibly null). */
    const userObjectName: Option<string>
    var methodName: Option<string>
    var isUserBased: bool
    var isSecure: bool
    var httpMethod: HttpVerb
    var params: Option<map<string, Obj>>
    var requestObject: Option<Obj>
    /** The calls the callback has received, oldest first. */
    var delivered: seq<Event>
    /** The calls handed to the transport, oldest first. */
    var sent: seq<HttpCall>

    constructor (userObjectName: Option<string>)
      ensures this.userObjectName == userObjectName
      ensures methodName == None && !isUserBased && isSecure && httpMethod == GET
      ensures params == None && requestObject == None
      ensures delivered == [] && sent == []
      ensures Scheme() == SecureScheme
    {
      this.userObjectName := userObjectName;
      methodName := None;
      isUserBased := false;
      isSecure := true;
      httpMethod := GET;
      params := None;
      requestObject := None;
      delivered := [];
      sent := [];
    }

    function Scheme(): (s: string)
      reads this`isSecure
      ensures s == SecureScheme <==> isSecure
      ensures s == RegularScheme <==> !isSecure
    {
      if isSecure then SecureScheme else RegularScheme
    }

    /**
     * "/" and the method name, with the session's user object name as a
     * first segment when the request is user based.
     */
    function Path(): (p: string)
      reads this`isUserBased, this`methodName
      ensures |p| > 0 && p[0] == '/'
      ensures !isUserBased ==> p[1..] == StringValueOf(methodName)
      ensures isUserBased ==>
        var user := StringValueOf(userObjectName);
        var n := |user|;
        |p| > n + 1 && p[1..n + 1] == user && p[n + 1] == '/' &&
        p[n + 2..] == StringValueOf(methodName)
    {
      if isUserBased then "/" + StringValueOf(userObjectName) + "/" + StringValueOf(methodName)
      else "/" + StringValueOf(methodName)
    }

    /** The URI arguments of every send, for a given query. */
    function Uri(query: Option<string>): UriParts
      reads this`isSecure, this`isUserBased, this`methodName
    {
      UriParts(Scheme(), UrlFmt, DefaultPort, Path(), query, None)
    }

    /**
     * The URI depends on the secure flag, the user-based flag and the method
     * name only: as long as those stay, resolving it again gives the same URI.
     */
    twostate lemma UriStable(query: Option<string>)
      requires old(isSecure) == isSecure && old(isUserBased) == isUserBased
      requires old(methodName) == methodName
      ensures old(Uri(query)) == Uri(query)
    {
    }

    /** `ps` is what GetParamsForRequest can return for the current parameters. */
    ghost predicate Flattened(ps: Option<seq<Pair>>, toText: Obj -> string)
      reads this`params
    {
      (ps.None? <==> params.None?) &&
      (params.Some? ==> ps.Some? && IsFlattening(ps.value, params.value, toText))
    }

    /** Flattens the parameters into name/value pairs, in the map's iteration order. */
    method GetParamsForRequest(toText: Obj -> string) returns (ps: Option<seq<Pair>>)
      ensures Flattened(ps, toText)
    {
      if params.None? {
        return None;
      }
      var m := params.value;
      var ret: seq<Pair> := [];
      var rest := m.Keys;
      while rest != {}
        invariant FlattensExcept(ret, m, rest, toText)
        decreases rest
      {
        var key :| key in rest;
        FlattenStep(ret, m, rest, toText, key);
        ret := ret + [Pair(key, toText(m[key]))];
        rest := rest - {key};
      }
      FlattenDone(ret, m, toText);
      return Some(ret);
    }

    /** The body POST and PUT send: the parameters if there are any, else the request object as JSON. */
    function Body(ps: Option<seq<Pair>>, env: Collaborators): Option<Entity>
      reads this`requestObject
    {
      if ps.Some? then Some(Form(ps.value))
      else if requestObject.Some? then Some(Json(env.toJson(requestObject.value)))
      else None
    }

    /**
     * What the send for `verb` hands to the transport, or the message of the
     * exception that stops it first, when the parameters were flattened to `ps`.
     */
    function Planned(verb: HttpVerb, ps: Option<seq<Pair>>, env: Collaborators): (r: Result<HttpCall>)
      reads this`isSecure, this`isUserBased, this`methodName, this`requestObject
      requires verb != Unlisted
      // every verb: the fixed host and port, the scheme and path of the request, no fragment
      ensures r.Ok? ==>
        var u := r.value.uri;
        r.value.verb == verb && u.scheme == Scheme() && u.host == UrlFmt &&
        u.port == DefaultPort && u.path == Path() && u.fragment == None &&
        env.uriError(u) == None
      // GET and DELETE: the query is the encoded parameters, if any; never a body
      ensures (verb == GET || verb == DELETE) ==>
        var query := if ps.Some? then Some(env.formatQuery(ps.value)) else None;
        && (r.Ok? ==> r.value.uri.query == query && r.value.entity == None)
        && (r.Err? <==> env.uriError(Uri(query)).Some?)
        && (r.Err? ==> env.uriError(Uri(query)) == Some(r.message))
      // POST and PUT: never a query; the parameters win over the request object
      ensures (verb == POST || verb == PUT) ==>
        && (r.Ok? ==> r.value.uri.query == None)
        && (r.Ok? && ps.Some? ==> r.value.entity == Some(Form(ps.value)))
        && (r.Ok? && ps.None? && requestObject.Some? ==>
              r.value.entity == Some(Json(env.toJson(requestObject.value))))
        && (r.Ok? && ps.None? && requestObject.None? ==> r.value.entity == None)
      // POST and PUT: a URI failure comes first; then an encoding failure of the body
      ensures (verb == POST || verb == PUT) ==>
        var uriError := env.uriError(Uri(None));
        && (uriError.Some? ==> r == Err(uriError.value))
        && (uriError.None? ==>
              (r.Err? <==> Body(ps, env).Some? && env.entityError(Body(ps, env).value).Some?))
        && (uriError.None? && r.Err? ==> Some(r.message) == env.entityError(Body(ps, env).value))
    {
      match verb
      case GET => QueryPlan(GET, ps, env)
      case DELETE => QueryPlan(DELETE, ps, env)
      case POST => EntityPlan(POST, ps, env)
      case PUT => EntityPlan(PUT, ps, env)
    }

    function QueryPlan(verb: HttpVerb, ps: Option<seq<Pair>>, env: Collaborators): Result<HttpCall>
      reads this`isSecure, this`isUserBased, this`methodName
    {
      var query := if ps.Some? then Some(env.formatQuery(ps.value)) else None;
      var uri := Uri(query);
      match env.uriError(uri)
      case Some(message) => Err(message)
      case None => Ok(HttpCall(verb, uri, None))
    }

    function EntityPlan(verb: HttpVerb, ps: Option<seq<Pair>>, env: Collaborators): Result<HttpCall>
      reads this`isSecure, this`isUserBased, this`methodName, this`requestObject
    {
      var uri := Uri(None);
      var entity := Body(ps, env);
      if env.uriError(uri).Some? then Err(env.uriError(uri).value)
      else if entity.Some? && env.entityError(entity.value).Some? then Err(env.entityError(entity.value).value)
      else Ok(HttpCall(verb, uri, entity))
    }

    /**
     * A send for `verb` made the transport call `call` (none when a URI or
     * encoding failure stopped it) and ended with `response`.
     */
    ghost predicate Performs(verb: HttpVerb, env: Collaborators, call: Option<HttpCall>, response: Result<string>)
      reads this`isSecure, this`isUserBased, this`methodName, this`requestObject, this`params
      requires verb != Unlisted
    {
      exists ps :: Flattened(ps, env.toText) && Completes(Planned(verb, ps, env), env, call, response)
    }

    method SendGetRequest(env: Collaborators) returns (call: Option<HttpCall>, response: Result<string>)
      ensures Performs(GET, env, call, response)
    {
      var ps: Option<seq<Pair>> := None;
      var query: Option<string> := None;
      if params.Some? {
        ps := GetParamsForRequest(env.toText);
        query := Some(env.formatQuery(ps.value));
      }
      var uri := Uri(query);
      if env.uriError(uri).Some? {
        call, response := None, Err(env.uriError(uri).value);
      } else {
        call := Some(HttpCall(GET, uri, None));
        response := env.transport(call.value);
      }
      assert Flattened(ps, env.toText);
    }

    method SendPostRequest(env: Collaborators) returns (call: Option<HttpCall>, response: Result<string>)
      ensures Performs(POST, env, call, response)
    {
      ghost var ps: Option<seq<Pair>> := None;
      var uri := Uri(None);
      if env.uriError(uri).Some? {
        call, response := None, Err(env.uriError(uri).value);
        // the parameters are not flattened; any flattening witnesses the plan
        if params.Some? {
          var some := SomeFlattening(params.value, env.toText);
          ps := Some(some);
        }
      } else {
        var entity: Option<Entity> := None;
        if params.Some? {
          var pairs := GetParamsForRequest(env.toText);
          ps := pairs;
          entity := Some(Form(pairs.value));
        } else if requestObject.Some? {
          entity := Some(Json(env.toJson(requestObject.value)));
        }
        if entity.Some? && env.entityError(entity.value).Some? {
          call, response := None, Err(env.entityError(entity.value).value);
        } else {
          call := Some(HttpCall(POST, uri, entity));
          response := env.transport(call.value);
        }
      }
      assert Flattened(ps, env.toText);
    }

    method SendPutRequest(env: Collaborators) returns (call: Option<HttpCall>, response: Result<string>)
      ensures Performs(PUT, env, call, response)
    {
      ghost var ps: Option<seq<Pair>> := None;
      var uri := Uri(None);
      if env.uriError(uri).Some? {
        call, response := None, Err(env.uriError(uri).value);
        // the parameters are not flattened; any flattening witnesses the plan
        if params.Some? {
          var some := SomeFlattening(params.value, env.toText);
          ps := Some(some);
        }
      } else {
        var entity: Option<Entity> := None;
        if params.Some? {
          var pairs := GetParamsForRequest(env.toText);
          ps := pairs;
          entity := Some(Form(pairs.value));
        } else if requestObject.Some? {
          entity := Some(Json(env.toJson(requestObject.value)));
        }
        if entity.Some? && env.entityError(entity.value).Some? {
          call, response := None, Err(env.entityError(entity.value).value);
        } else {
          call := Some(HttpCall(PUT, uri, entity));
          response := env.transport(call.value);
        }
      }
      assert Flattened(ps, env.toText);
    }

    method SendDeleteRequest(env: Collaborators) returns (call: Option<HttpCall>, response: Result<string>)
      ensures Performs(DELETE, env, call, response)
    {
      var ps: Option<seq<Pair>> := None;
      var query: Option<string> := None;
      if params.Some? {
        ps := GetParamsForRequest(env.toText);
        query := Some(env.formatQuery(ps.value));
      }
      var uri := Uri(query);
      if env.uriError(uri).Some? {
        call, response := None, Err(env.uriError(uri).value);
      } else {
        call := Some(HttpCall(DELETE, uri, None));
        response := env.transport(call.value);
      }
      assert Flattened(ps, env.toText);
    }

    /**
     * The switch on the verb: the send of the matching branch, which made the
     * transport call `call` and ended with `reply`; no send at all (and so no
     * reply) for a verb none of the four branches handles.
     */
    method Dispatch(env: Collaborators) returns (call: Option<HttpCall>, reply: Option<Result<string>>)
      ensures httpMethod == Unlisted ==> call == None && reply == None
      ensures httpMethod != Unlisted ==> reply.Some? && Performs(httpMethod, env, call, reply.value)
    {
      call, reply := None, None;
      match httpMethod {
        case GET =>
          var c, r := SendGetRequest(env);
          call, reply := c, Some(r);
        case POST =>
          var c, r := SendPostRequest(env);
          call, reply := c, Some(r);
        case PUT =>
          var c, r := SendPutRequest(env);
          call, reply := c, Some(r);
        case DELETE =>
          var c, r := SendDeleteRequest(env);
          call, reply := c, Some(r);
        case Unlisted =>
      }
    }

    /**
     * Sends the request for its verb and reports the outcome to the callback:
     * exactly one callback call per send, success with the transport's text
     * or failure with the message of the exception that stopped the send.
     * A verb none of the four branches handles makes no transport call and
     * reports success with a null response.
     */
    method SendRequest(env: Collaborators)
      modifies this`delivered, this`sent
      ensures |delivered| == |old(delivered)| + 1 && delivered[..|old(delivered)|] == old(delivered)
      ensures httpMethod == Unlisted ==>
        sent == old(sent) && delivered == old(delivered) + [Success(None)]
      ensures httpMethod != Unlisted ==>
        exists ps :: Flattened(ps, env.toText) &&
          var plan := Planned(httpMethod, ps, env);
          && sent == old(sent) + (if plan.Ok? then [plan.value] else [])
          && delivered == old(delivered) + [Delivery(Attempt(plan, env))]
    {
      var call, reply := Dispatch(env);
      if call.Some? {
        sent := sent + [call.value];
      }
      delivered := delivered + [if reply.Some? then Delivery(reply.value) else Success(None)];
      if httpMethod != Unlisted {
        // the sends read none of the fields just updated
        assert Performs(httpMethod, env, call, reply.value);
        ghost var ps :| Flattened(ps, env.toText) && Completes(Planned(httpMethod, ps, env), env, call, reply.value);
        CompletesByAttempt(Planned(httpMethod, ps, env), env, call, reply.value);
      }
    }
  }

  /** `call` and `response` are how a send that planned `plan` ends. */
  ghost predicate Completes(plan: Result<HttpCall>, env: Collaborators, call: Option<HttpCall>, response: Result<string>)
  {
    match plan
    case Err(message) => call == None && response == Err(message)
    case Ok(c) => call == Some(c) && response == env.transport(c)
  }

  lemma CompletesByAttempt(plan: Result<HttpCall>, env: Collaborators, call: Option<HttpCall>, response: Result<string>)
    requires Completes(plan, env, call, response)
    ensures call == (if plan.Ok? then Some(plan.value) else None)
    ensures response == Attempt(plan, env)
  {
  }

  /**
   * How a send that planned `plan` ends: the exception that stopped it,
   * passed on with its message, or whatever the transport answers.
   */
  function Attempt(plan: Result<HttpCall>, env: Collaborators): Result<string>
  {
    match plan
    case Err(message) => Err(message)
    case Ok(c) => env.transport(c)
  }
}
