# Kettle request lifecycle and test-harness model

This project models two parts of Kettle, a server framework built on Fluid
Infusion.

**The socket.io request lifecycle** (`lib/request.io.js`, module `RequestIO`
in `request_io.dfy`). A `kettle.requests.io` component owns one
`kettle.requests.request.io` child per connected socket.
- `createIO` registers the child under a freshly generated name.
- It installs a "disconnect" handler that tears the child down only while the child is still registered.
- It stores the child on the socket as `fluidRequest`.
- Both terminal events of a request, `onError` and `onSuccess`, run the same listener list: fire `onRequestEnd`, then `destroy`.
- The reply handlers write through the request's `send` when there is one. The error handler substitutes `{isError: true, message: "Unknown error"}` for a missing error.

The lifecycle is modelled in two layers:
- A state machine over `Registry` values: the names ever issued, the names still registered, and a log of `onRequestEnd` firings and destroys. The invariant `WellFormed` says that a request still registered has not ended, and that a request no longer registered ended and was destroyed exactly once, with the end first.
- The classes `RequestsIO`, `Request` and `Socket`, which hold that state in fields. Their methods are proved to follow the state machine and preserve its invariant.

**The deterministic parts of the test harness** (`test/utils/js/KettleTestUtils.js`,
module `TestUtils` in `test_utils.dfy`):
- `moduleSource` wraps a test sequence with two fixed set-up steps and two fixed tear-down steps.
- `buildTestCase` stamps two properties onto a test definition.
- The HTTP test request builds its options (path, headers and body) and then updates the cookie jar from the response.
- `setCookie` sets the cookie on a raw socket.io request.
- `connect` concatenates the socket.io connection URL.

`js_value.dfy` (module `JsValue`) gives the JavaScript value semantics these
rely on:
- truthiness;
- `||`;
- property lookup that yields `undefined`;
- the string coercion applied by `+`.

`wrappers.dfy` holds `Option` and `Result`.

Collaborators that are not part of the model are passed in as parameters:
- the UUID generator is the `name` argument of `CreateIO`;
- `fluid.stringTemplate` is the `template` parameter;
- `JSON.stringify` is the `stringify` parameter, which returns `None` where JavaScript returns `undefined`.

The model follows the code, not the intended contract where the two differ. A
request is meant to see at most one terminal signal, with a second one guarded
against. In the code only the disconnect handler checks registration; the
signal path has no guard.

## Model

| member | source | states |
|---|---|---|
| `RequestIO.RequestsIO.CreateIO` | lib/request.io.js:35-58 | records the child's options and instantiates it under the new name. Every other registry entry is unchanged and the log is unchanged. The disconnect handler is appended to the socket, and `socket.fluidRequest` is the new request. Every earlier child stays on record, so its disconnect handler can still be called. The new state is `Created` of the old one and the invariant is kept. |
| `RequestIO.Request.constructor` | lib/request.io.js:37-46 | the child carries the generated `name` member and the `socket` it was configured with |
| `RequestIO.CreatedWellFormed` | lib/request.io.js:36-47 | registering a never-issued name keeps the lifecycle invariant, adds exactly that name to the live set, and fires nothing |
| `RequestIO.RequestsIO.FireRequestEnd` | lib/request.io.js:73 | firing onRequestEnd appends one firing, with the event's arguments, to the log and changes nothing else |
| `RequestIO.RequestsIO.DestroyChild` | lib/request.io.js:74 | destroy removes exactly that name from the parent's children and logs the destroy |
| `RequestIO.RequestsIO.Signal` | lib/request.io.js:71-80 | an onError or onSuccess event on a registered request runs onRequestEnd.fire, then destroy. The name leaves the registry, the options records and the record of created children stay, so the disconnect handler can still run afterwards, and the invariant is kept. |
| `RequestIO.SignalEndsThenDestroys` | lib/request.io.js:72-79 | a signal appends exactly an onRequestEnd firing carrying the payload, followed by a Destroy of the same name. Afterwards the name is unregistered and that request has ended once and been destroyed once. |
| `RequestIO.TeardownWellFormed` | lib/request.io.js:49-79 | the shared "fire onRequestEnd, then destroy" teardown of a registered request keeps the invariant: the request ends exactly once and every Destroy follows its end |
| `RequestIO.RequestsIO.OnDisconnect` | lib/request.io.js:49-54 | the disconnect handler tears the request down when it is still registered. Otherwise it changes nothing at all. It stays callable after any teardown. |
| `RequestIO.DisconnectLiveTearsDown` | lib/request.io.js:49-54 | a disconnect on a registered request fires onRequestEnd once, with no arguments, then destroys the request and unregisters it |
| `RequestIO.DisconnectAfterEndIsNoOp` | lib/request.io.js:50 | a disconnect after the request was destroyed leaves the state unchanged: nothing fires and nothing is removed |
| `RequestIO.SignalThenDisconnect` | lib/request.io.js:49-79 | in the order "signal, then disconnect", exactly one onRequestEnd fires for the request in total. Every other request's registration and firings are untouched. |
| `RequestIO.RunWellFormed` | lib/request.io.js:35-79 | any run of creations, signals on registered requests and disconnects keeps the lifecycle invariant |
| `RequestIO.ExactlyOneTeardown` | lib/request.io.js:35-79 | after any run from the empty component, a request that is gone ended exactly once and was destroyed exactly once, with the end first. A request still registered has fired neither. |
| `RequestIO.SignalThenDisconnectOrder` | lib/request.io.js:49-79 | on the class, "create, signal, disconnect" can be called in that order, and the request ends once and is destroyed once |
| `RequestIO.DoubleDisconnectOrder` | lib/request.io.js:49-54 | on the class, "create, disconnect, disconnect" can be called in that order, the second disconnect is stopped by the guard, and the request ends once and is destroyed once |
| `RequestIO.OnErrorHandler` | lib/request.io.js:98-107 | there is no write when `send` is falsy. A truthy `send` that is not a function throws a TypeError, and exactly then is the result an error. When `send` is a function there is exactly one call of it, and its payload is never falsy. The payload is the error unchanged when the error is truthy, and the canonical "Unknown error" object when it is not. |
| `RequestIO.OnSuccessHandler` | lib/request.io.js:114-119 | there is no write when `send` is falsy. A truthy `send` that is not a function throws a TypeError, and exactly then is the result an error. When `send` is a function there is exactly one call of it with the response unchanged. |
| `RequestIO.ErrorRepliesLikeSuccess` | lib/request.io.js:98-119 | the error reply goes through the same write path as a success reply, with the fallback substituted for a falsy error, including the same TypeError for a non-function `send` |
| `TestUtils.ModuleSource` | test/utils/js/KettleTestUtils.js:302-327 | the result's sequence is the apply-configuration and await-server-ready steps, then the original steps in their order, then the server-stop and await-stopped steps, so its length is the original's plus 4. The name is the configuration name followed by " tests.", and `name` and `expect` pass through. A non-array sequence throws. The definition is not modified. |
| `TestUtils.BuildTestCase` | test/utils/js/KettleTestUtils.js:329-336 | sets `configurationName` and the `moduleSource` invoker record on the given definition, returns that same object, and leaves every other property as it was |
| `TestUtils.HttpSend` | test/utils/js/KettleTestUtils.js:196-208 | see the notes below the table |
| `TestUtils.OnResponseEnd` | test/utils/js/KettleTestUtils.js:224-229 | the jar takes the response's `set-cookie` value when it is truthy and otherwise keeps its prior cookie |
| `TestUtils.SetCookie` | test/utils/js/KettleTestUtils.js:160-164 | exactly one "cookie" header, carrying the jar's cookie, is set on the raw request when the jar's cookie is truthy. Otherwise nothing is set. |
| `TestUtils.RawRequest.SetRequestHeader` | test/utils/js/KettleTestUtils.js:162 | setting a header appends exactly that name and value to the request's headers |
| `TestUtils.CookieJar.constructor` | test/utils/js/KettleTestUtils.js:29-40 | a new jar's cookie is the empty string, so no Cookie header is sent before a response sets one |
| `TestUtils.ConnectUrl` | test/utils/js/KettleTestUtils.js:119-122 | for any options, the URL begins with the string form of `hostname` followed by ":" and ends with the string form of the templated path |
| `TestUtils.ConnectUrlShape` | test/utils/js/KettleTestUtils.js:119-122 | for a string host name, a numeric port below 10^21 and a string templated path, the URL is exactly `hostname + ":" + port + path`, and the digits between the ":" and the path read back as the port |
| `TestUtils.DefaultIoUrl` | test/utils/js/KettleTestUtils.js:54-122 | an example instance of `ConnectUrlShape`, derived from it: with the default port 8080 and the socket.io default host name "ws://localhost", the URL is "ws://localhost:8080" followed by the templated path |

What `TestUtils.HttpSend` states:
- It throws exactly when a header must be set on a primitive `headers` value, or when a non-string body stringifies to `undefined`.
- Otherwise it returns the caller's options with only `path` (the templated path) and `headers` replaced. The caller's options object itself is not modified.
- When there is a body, `Content-Type` is "application/json" and `Content-Length` is the length of the serialized body. A string body is kept as is and any other body is stringified.
- `Cookie` is the jar's cookie exactly when that cookie is truthy.
- No other existing header changes, and with no body and no cookie the headers are exactly `headers || {}`.
- The body written is the serialized body.

## Left out

- UUID generation is not modelled. `CreateIO` takes the generated name as a parameter and requires that it was never issued before, which stands for v4 UUIDs not repeating.
- Fluid's dependency-injection machinery is not modelled: `fluid.defaults`, grade merging, `mergePolicy`, invoker argument expansion and `initDependent`. Only their effect on the registry is kept. Destroy is modelled as removing the child from its parent; its other effects (onDestroy listeners, clearing the child's events) are not.
- The connection between `onError`/`onSuccess` and the two reply handlers comes from the base grade `kettle.requests.request`, which is not part of this model. So the handlers are modelled as separate functions of `send` and the payload.
- Signal: requires that the request is still registered. A signal after a disconnect, and a repeated signal, are not modelled, because the signal path has no guard and what Fluid does with a destroyed component's events is not part of this model. For the same reason `Run` yields `None` for such a run, and no idempotence is claimed for signals.
- OnDisconnect: models the one handler `CreateIO` installed for a given request. Socket.io's dispatch of a socket's disconnect event to all of that socket's listeners, and any race between events, is not modelled. Only sequential orderings are.
- The `options.components[name]` record is modelled as the socket it carries. Its fixed `type` and `members` entries are not kept.
- All socket.io and Node `http` I/O is not modelled: connecting, emitting, the `connect`, `error` and `message` listeners, streaming the response, `req.write`/`req.end`, the `close`/`error` handlers and `request.io.send`/`listen`/`disconnect`. The test-side component's `socket` field set by `connect` is not modelled either.
- The XMLHttpRequest replacement in `updateDependencies` is not modelled, and neither is the cookie parser (`makeCookieParser`, `pseudoReq`, `cookies`/`signedCookies`). Both are foreign libraries.
- The response callback's arguments are not modelled.
- jqUnit assertions, `fluid.log`, and `buildTests`/`runTests`/`bootstrap` are not modelled.
- HttpSend: requires that the `headers` option is neither an array nor a function, because the model's arrays and functions carry no named properties to assign.
- HttpSend: `Content-Length` counts the characters of the body, where JavaScript's `length` counts UTF-16 code units. The two agree for text in the Basic Multilingual Plane.
- ModuleSource: a `sequence` that is not an array throws a TypeError in the model. A plain object that happens to carry its own `unshift` and `push` functions is not modelled.
- JavaScript numbers are modelled as unbounded integers, always printed in plain decimal. NaN, infinities, fractions and -0 are not represented; JavaScript's exponent form for magnitudes of 10^21 and more, and its loss of integer precision above 2^53, are not modelled either.
- `fluid.copy` is modelled by value semantics. Property maps are values, so the copy is the original map, and the methods that take the caller's objects have no modifies clause.
