# StackMob request: planning and result delivery

This project models the core of `StackMobRequest` from the StackMob Java client SDK. A `StackMobRequest` is the mutable build state of one HTTP call to the fixed StackMob API host. It holds:

- a method name;
- a user-based flag, which puts the session's user object name in the path;
- a secure flag, which selects https or http;
- the verb;
- an optional parameter map;
- an optional request object;
- a callback.

`sendRequest` works in three steps:

1. It picks the private send method for the verb.
2. That method resolves the URI (scheme, host, path and, for GET and DELETE, a query made from the parameters). For POST and PUT it also builds the body: the form-encoded parameters if there are any, otherwise the request object as JSON. It then calls the HTTP transport.
3. `sendRequest` reports the outcome to the callback exactly once: success with the response text, or failure with the message of the exception that stopped the send.

The model has two modules:

- `NameValuePairs` (`name_value_pairs.dfy`): how a parameter map becomes name/value pairs. The source iterates a `HashMap`, so no order is promised. `IsFlattening` states what is promised: every key exactly once, with its value rendered as text. The lemmas prove that such a list decodes back to the rendered map, and that any two such lists are permutations of each other.
- `StackMob` (`stackmob_request.dfy`): the request as a class `Request`.
  - The class has the source's public fields. The session is reduced to the one thing the request reads from it, the user object name (possibly null), which is fixed at construction.
  - The callback is an append-only log `delivered` of `Success(response)` / `Failure(message)` events.
  - The calls handed to the transport are an append-only log `sent`.
  - `Planned` is the specification of the four send methods: for a verb and a chosen flattening of the parameters, it gives either the transport call or the message of the exception that stops the send.
  - Each `Send*Request` method mirrors the statement order of its source method, and its contract ties it to `Planned`.

The code the request calls belongs to other libraries and is not modelled. It appears as the functions of a `Collaborators` value that the operations take as a parameter:

- `Object.toString` of a parameter value;
- Gson's `toJson`;
- `URLEncodedUtils.format`;
- the syntax check of `URIUtils.createURI`, which may fail with a message;
- the charset failure of the entity constructors;
- `HttpHelper.doGet/doPost/doPut/doDelete`, which answer with text or a `StackMobException` message.

## Behaviour of the code that the model keeps

- **Unhandled verb.** The switch in `sendRequest` (StackMobRequest.java:73-89) has no default branch, and `callback.success(response)` at line 91 runs after it whatever the verb was. A verb that matches none of the four cases therefore makes no transport call and delivers `success(null)`. The model gives `HttpVerb` a fifth value, `Unlisted`, for such a constant. `SendRequest` then logs `Success(None)`.
- **Null method name and user object name.** `methodName` has no initialiser (line 48), so it starts as Java `null`. The session's user object name may be null too. Java's string concatenation at lines 193 and 195 renders a null as `"null"`, so the path of a fresh request is `/null`. The model keeps both as `Option<string>` and renders them with `StringValueOf`.
- **Where encoding can fail.** Only the POST and PUT entity constructors (lines 128, 131, 154, 157) can throw `UnsupportedEncodingException`, and only those two methods catch it (lines 138, 164). GET and DELETE format the query with `URLEncodedUtils.format`, which declares no checked exception, so their only caught failure is the URI syntax error (lines 112, 184).
- **Order of failures.** POST and PUT build the URI (lines 124, 150) before the entity, so a URI failure wins over an encoding failure. GET and DELETE format the query (lines 106, 178) before building the URI.
- **Parameter order.** `params` is a `HashMap` (line 61), and the pairs follow its key-set iteration order (line 217). No order is promised.

## Model

| member | source | states |
|---|---|---|
| StackMob.Request.constructor | src/main/java/com/stackmob/sdk/api/StackMobRequest.java:47-66 | A new request keeps the session's user object name. It is secure (scheme https), not user based, verb GET, with no parameters, no request object and a null method name. No event has been delivered and nothing has been sent. |
| StackMob.Request.Scheme | src/main/java/com/stackmob/sdk/api/StackMobRequest.java:199-205 | The scheme is "https" exactly when the request is secure and "http" exactly when it is not. |
| StackMob.Request.Path | src/main/java/com/stackmob/sdk/api/StackMobRequest.java:191-197 | The path always starts with "/". For a plain request the rest is the method name. For a user-based request it is the user object name, "/", then the method name. A null name is rendered as "null". |
| StackMob.Request.UriStable | src/main/java/com/stackmob/sdk/api/StackMobRequest.java:191-209 | URI resolution reads only the secure flag, the user-based flag and the method name. Resolving again with those unchanged gives the same URI, whatever else changed. |
| StackMob.Request.GetParamsForRequest | src/main/java/com/stackmob/sdk/api/StackMobRequest.java:211-222 | No parameters give null. Otherwise the result has one pair per map entry: as many pairs as entries, distinct names exactly equal to the key set, and each value the text of the key's value. The order is the map's iteration order, which is not fixed. |
| NameValuePairs.FlatteningRoundTrip | src/main/java/com/stackmob/sdk/api/StackMobRequest.java:216-219 | Decoding any flattening of a parameter map gives back the map with each value rendered as text. |
| NameValuePairs.FlatteningsArePermutations | src/main/java/com/stackmob/sdk/api/StackMobRequest.java:216-219 | Any two flattenings of the same map are permutations of each other: iteration order is the only freedom. |
| StackMob.Request.Planned | src/main/java/com/stackmob/sdk/api/StackMobRequest.java:99-189 | Every verb: host api.mob1.stackmob.com, port -1, no fragment, and the request's scheme and path. GET/DELETE: the query is the formatted parameters when present, else none; never a body; the request object is ignored. POST/PUT: never a query; the body is the form pairs when parameters are present (they win over the request object), else the request object's JSON, else none. A URI syntax failure, or a POST/PUT encoding failure, stops the send with the same message. A URI failure comes before any encoding. |
| StackMob.Request.SendGetRequest | src/main/java/com/stackmob/sdk/api/StackMobRequest.java:99-117 | For some flattening of the parameters, the GET send makes exactly the call `Planned` gives. The response is the transport's answer, or `Planned`'s error with no call made. |
| StackMob.Request.SendPostRequest | src/main/java/com/stackmob/sdk/api/StackMobRequest.java:119-143 | As for GET, with `Planned(POST, …)`. A URI failure wins over an encoding failure, and either one means no call is made. |
| StackMob.Request.SendPutRequest | src/main/java/com/stackmob/sdk/api/StackMobRequest.java:145-169 | As for POST, with `Planned(PUT, …)`. |
| StackMob.Request.SendDeleteRequest | src/main/java/com/stackmob/sdk/api/StackMobRequest.java:171-189 | As for GET, with `Planned(DELETE, …)`. |
| StackMob.Request.Dispatch | src/main/java/com/stackmob/sdk/api/StackMobRequest.java:73-89 | Each of the four verbs runs its own send and yields its call and reply. Any other verb runs no send and yields no reply. |
| StackMob.Delivery | src/main/java/com/stackmob/sdk/api/StackMobRequest.java:91-95 | The callback receives success exactly when the send's outcome is a response, with that text unchanged. Otherwise it receives failure with the exception's message, never both. |
| StackMob.Request.SendRequest | src/main/java/com/stackmob/sdk/api/StackMobRequest.java:68-97 | Every send appends exactly one callback event and changes nothing else in the request. For the four verbs the transport log grows by the planned call, or by nothing when the plan failed, and the event is the delivery of that plan's outcome. For any other verb no call is made and the event is success with a null response. |

## Left out

- Network transport: `HttpHelper` is not part of this model. Its four operations are the `transport` function, a deterministic stand-in for I/O that answers with text or a `StackMobException` message.
- Library encoders: the byte-level UTF-8 URL and form encoding of `URLEncodedUtils.format`, `UrlEncodedFormEntity` and `StringEntity` is left to Apache HttpClient. The model keeps form bodies as their pairs (`Form(pairs)`), keeps JSON bodies as text, and represents the possible `UnsupportedEncodingException` as `entityError`.
- Gson serialisation: `toJson` is an uninterpreted function of the request object.
- URI syntax: the validity rules of `URIUtils.createURI` (RFC 3986) are the predicate `uriError`, which gives the message of the `URISyntaxException` when there is one.
- Session: `StackMobSession` is not part of this model. Only its user object name is used, taken as an immutable, possibly null string at construction.
- Uncaught runtime exceptions are excluded by the model's types and not modelled:
  - a null parameter value (`toString` on null);
  - a null verb;
  - a null boxed secure flag;
  - a null key in the parameter map, for which `BasicNameValuePair` throws `IllegalArgumentException` (line 218);
  - a null `callback`, for which the call at line 91 or 94 throws `NullPointerException` and no callback runs (the model always appends an event);
  - unchecked exceptions thrown by Gson or by the transport.
- Callback objects: the replaceable `callback` field and its default no-op implementation are represented by the event log `delivered`. What a callback does with an event, and on which thread, is the caller's concern.
- Threading: none is modelled; one request serves one send at a time.

