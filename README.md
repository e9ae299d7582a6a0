# weavebox request dispatch, in Dafny

This project models the request-dispatch core of weavebox, a small Go web
framework layered over the `httprouter` path router (`weavebox.go`). It covers:

- **The application and its subrouters.** The `Weavebox` class has its
  configuration fields: error handler, logging switch, prefix, middleware,
  bound context and the shared route table. The `Box` class embeds a copy of a
  `Weavebox`. The model covers `New`, `Use`, `Subrouter`, `Reset` and
  `BindContext`, plus route registration (`Get`, `Post`, `Put`, `Delete`,
  `add`) into the route table that every box shares.
- **The per-route dispatch closure.** This is `makeHTTPRouterHandle`. On each
  request it:
  - defaults the context when it is still unset;
  - builds the `Context`;
  - runs the box's current middleware in order, then the route's handler;
  - stops at the first error, which goes to the box's error handler.

  The `Dispatch` and `RunChain` methods of `Weavebox` are proved against a
  specification function, `Pipeline.Run`. That function gives the trace of
  events one request produces.
- **The access-log wrapper.** `responseLogger` is a class with its two
  counters. `ServeHTTP` puts a fresh logger around the response only when
  logging is on. The access-log line carries the logger's status and size.
- **The `Context` helpers** `Text`, `Redirect` and `Param`. `Redirect` checks
  its code against the 300..307 range.

Handlers are application code, so they are opaque here. A `Pipeline.Script`
says, for one request:
- which calls each handler makes on its response;
- which error it returns;
- which calls each custom error handler makes.

The response itself is an abstract `net/http` writer, `Http.Sink`, with these
rules:
- it has a header map that handlers edit;
- the first `WriteHeader` commits the status line and sends a snapshot of the
  header map with it;
- a later header edit stays in the map but is never sent;
- a body write commits status 200 when no status was committed;
- after a 1xx, 204 or 304 status, a body write takes no bytes and fails with
  `net/http`'s body-not-allowed error;
- otherwise a body write appends as many bytes as the connection still
  accepts, and returns that count.

Each object has a pure state and a pure step function (`Http.HeaderStep`,
`Http.WriteHeaderStep`, `Http.WriteStep`, `Http.TextStep`,
`Http.RedirectStep`). `Http.Replay` runs a sequence of calls. Each method is
proved to follow the matching step.

Modules:
- `Wrappers`: `Option`.
- `Paths`: the separator rules of `path.Join` and `path.Clean`.
- `Http`: the sink, the logger and the response calls.
- `Pipeline`: the dispatch state machine and its lemmas.
- `Weavebox`: the `Context`, the route table, `Weavebox` and `Box`.
- `Scenarios`: client methods that build small applications and check, by
  assertion, what the contracts above imply for them:
  - nested subrouters register the concatenated prefix;
  - a subrouter inherits its parent's middleware as it is when the subrouter
    is taken (doc comment at weavebox.go:121-122);
  - `Use` after `Get` still applies to that route;
  - a logged GET answered with `Text(200, "pong")`;
  - a failing middleware answered with 500;
  - a POST redirect, refused with code 200 and sent with code 302;
  - a context bound with `BindContext` survives requests, and only the matched
    box is touched (doc comment at weavebox.go:105-108);
  - `Reset` empties only the subrouter's middleware (weavebox.go:122).

Three behaviours of weavebox.go worth knowing:
- **Subrouter prefixes.** `Subrouter` concatenates prefixes as plain strings
  (weavebox.go:125). They are not path-joined. Only route registration joins
  them with the route (weavebox.go:166). `Paths.JoinConcat` shows that the two
  agree for prefixes and routes already in clean form.
- **The logged status.** The logger records the status of the *last*
  `WriteHeader`. The client receives the *first* one. So the logged status can
  differ from the status that was sent (`Http.LoggedStatusMayDifferFromSent`).
  The two agree on whether any status was sent at all
  (`Http.LoggedStatusSetIffCommitted`).
- **`Text(0, s)`.** In the model, this logs status 200 through a logger.
  `WriteHeader(0)` leaves the counter at 0, and the body write then sets 200.
  The model's sink accepts any code, as `net/http` did before Go 1.10. Since
  Go 1.10, `WriteHeader` panics on a code outside 100..999, so there
  `Text(0, s)` panics before anything is logged.

## Model

| member | source | states |
|---|---|---|
| Paths.Collapse | weavebox.go:166 | Collapsing runs of '/' never lengthens a path. It leaves no double separator and keeps the first and last character. |
| Paths.CollapseKeepsSegments | weavebox.go:166 | Collapsing keeps every character other than '/', in order. |
| Paths.CollapseKeepsClean | weavebox.go:166 | A path with no double separator is left unchanged. |
| Paths.Clean | weavebox.go:166 | A cleaned path is never empty. It has no double separator and no trailing '/' unless it is the root. It is absolute exactly when its input is. The empty path cleans to ".". |
| Paths.CleanKeepsSegments | weavebox.go:166 | Cleaning a non-empty path keeps every character other than '/', in order. |
| Paths.CleanIdempotent | weavebox.go:166 | Cleaning twice gives the same result as cleaning once. |
| Paths.Join | weavebox.go:166 | `path.Join(prefix, route)` is "" exactly when both are empty. Otherwise it is clean, and absolute exactly when its first non-empty element is. |
| Paths.JoinIsClean | weavebox.go:166 | A joined path joined again onto an empty prefix is unchanged, so registration never sees an unclean path. |
| Paths.JoinConcat | weavebox.go:125-166 | A clean prefix (or none) joined with a clean absolute route equals their plain concatenation. So a nested subrouter's concatenated prefix registers the path one expects. |
| Http.SinkWriteHeader | weavebox.go:317 | On the underlying writer, the first status written is committed, together with a snapshot of the header map as it is then. Later codes are ignored. The header map and the body are untouched. |
| Http.SinkWrite | weavebox.go:307 | The underlying writer appends the accepted prefix of the bytes and returns its length. The count equals the input length exactly when the bytes fit. If no status was committed, the write commits 200 and snapshots the header map. After a 1xx, 204 or 304 status it takes no bytes. |
| Http.Sink.SetHeader | weavebox.go:249 | `Header().Set` replaces one header and changes nothing else. |
| Http.Sink.WriteHeader | weavebox.go:317 | The sink's new state is `SinkWriteHeader` of its old state. |
| Http.Sink.Write | weavebox.go:307 | The sink's new state and count are `SinkWrite` of its old state. A write that takes every byte returns no error. Otherwise it returns the body-not-allowed error after a 1xx, 204 or 304 status, and a short-write error after any other status. |
| Http.ResponseLogger.constructor | weavebox.go:150 | A fresh logger wraps the given writer, with status 0 and size 0. |
| Http.ResponseLogger.Write | weavebox.go:303-310 | Forwards the bytes to the wrapped writer. Sets status to 200 only if it was still 0. Adds the count the writer returned to size. Returns that count and error. |
| Http.ResponseLogger.WriteHeader | weavebox.go:316-319 | Forwards the code to the wrapped writer and overwrites status with it. Size is unchanged. |
| Http.ResponseLogger.Status | weavebox.go:321-323 | Returns the logger's status counter. What the counter holds over a request is stated by `LoggedStatusSetIffCommitted` and `Weavebox.Weavebox.ServeHTTP`. |
| Http.ResponseLogger.Size | weavebox.go:325-327 | Returns the logger's size counter. What it holds is stated by `LoggedSizeIsBodyGrowth`. |
| Http.HeaderStep | weavebox.go:312-314 | Setting a header through either writer changes only that header in the map. What was sent, the status, the body and the logger's counters are untouched. |
| Http.WriteHeaderStep | weavebox.go:316-319 | The sink commits the first code. A logger, if present, records the latest code and keeps its size. |
| Http.WriteStep | weavebox.go:303-310 | The sink takes the write as `SinkWrite` does. A logger's size grows by the accepted count, and its status becomes 200 if it was 0. |
| Http.TextStep | weavebox.go:248-253 | `Text(code, s)` sets Content-Type to text/plain. If no status was sent yet, it commits `code` and sends the header with text/plain; otherwise the status and sent header stay. It appends `s`, truncated to what the connection accepts, unless the status sent is 1xx, 204 or 304; then the body is unchanged. The logger records `code` (200 for code 0) and grows by the bytes appended. |
| Http.RedirectStep | weavebox.go:289-295 | Fails with "invalid redirect code" exactly when code < 300 or code > 307, and then nothing is written. Otherwise it sets Location in the header map. If no status was sent yet, it commits the code and sends the header with Location; otherwise the status and sent header stay. It leaves the body alone, and the logger records the code. |
| Http.CommittedResponseIsFinal | weavebox.go:289-295 | Once a status is committed, no later call changes the status or the header that was sent. |
| Http.LateRedirectIsNotSent | weavebox.go:289-295 | After `Text(200, "ok")`, a `Redirect("/home", 302)` returns no error but the client still gets 200 without a Location header. |
| Http.BodylessStatusKeepsBody | weavebox.go:303-310 | Once a 1xx, 204 or 304 status is committed, no sequence of calls adds to the body. |
| Http.NoContentTextIsBodyless | weavebox.go:248-253 | Through a logger, `Text(204, "x")` sends 204 with no body, and the logger records 204 and size 0. |
| Http.LoggingIsTransparent | weavebox.go:147-157 | For any sequence of the modelled calls (header set, `WriteHeader`, `Write`, `Text`, `Redirect`), the sink ends in the same state with or without the logger around it. |
| Http.LoggedSizeIsBodyGrowth | weavebox.go:303-310 | After any sequence of calls, the logger's size grows by exactly the number of bytes the writer accepted into the body. |
| Http.LoggedStatusSetIffCommitted | weavebox.go:303-319 | If no call uses code 0, the logger's status is non-zero exactly when the client has been sent a status. |
| Http.LoggedStatusMayDifferFromSent | weavebox.go:316-319 | After `Text(200, "ok")` then `WriteHeader(500)`, the client got 200 but the logger holds 500. |
| Http.Writer.SetHeader | weavebox.go:312-314 | Through the sink or the logger, the writer state follows `HeaderStep`. |
| Http.Writer.WriteHeader | weavebox.go:316-319 | Through the sink or the logger, the writer state follows `WriteHeaderStep`. |
| Http.Writer.Write | weavebox.go:303-310 | Through the sink or the logger, the writer state and count follow `WriteStep`. It returns an error exactly on a short write. |
| Pipeline.ErrorHandlerCalls | weavebox.go:23-25 | The error handler gets the failing handler's error (weavebox.go:184 and 189). The default error handler's calls are `http.Error(w, err.Error(), 500)`: a plain-text Content-Type, status 500, and the message plus a newline. A custom error handler makes the calls the script gives it. What those calls do to a response is `DefaultErrorHandlerAnswers500`. |
| Pipeline.Run | weavebox.go:182-192 | The trace of one dispatch has at most one event more than the chain has handlers. The trace is pinned down by `RunShape`, `ShortCircuit`, `ErrorHandledOnceIffFailure` and `HandlerRunsIffMiddlewareSucceeds`. |
| Pipeline.FirstFailure | weavebox.go:182-192 | The index of the first failing handler of the chain, or the chain's length when none fails. No earlier handler fails. |
| Pipeline.RunShape | weavebox.go:182-192 | A dispatch runs the handlers up to and including the first failing one, in chain order. When one fails, exactly one error-handler event with that handler's error follows. Otherwise every handler runs and nothing else happens. |
| Pipeline.RunUpTo | weavebox.go:182-192 | If handlers before `i` all succeed, and `i` fails or is last, the trace is those handlers' runs followed by `i`'s run and its error handling. |
| Pipeline.ShortCircuit | weavebox.go:183-186 | Once a handler fails, no later handler runs. Every handler that runs is the next one of the chain. |
| Pipeline.ErrorHandledOnceIffFailure | weavebox.go:182-192 | The error handler is called exactly once when some handler fails and never otherwise. Its call is the last event and carries the first failing handler's error. |
| Pipeline.HandlerRunsIffMiddlewareSucceeds | weavebox.go:182-191 | The route's handler runs exactly when every middleware succeeded. |
| Pipeline.DefaultErrorHandlerAnswers500 | weavebox.go:23-25 | The default error handler, on a response with no status sent yet, commits 500 and sends the header with a plain-text Content-Type. The body is the error message plus a newline, and the logger records 500 and that size. |
| Weavebox.ByName | weavebox.go:268-270 | The value of the first parameter with the given key, or "" when no parameter has it. |
| Weavebox.Context.Param | weavebox.go:268-270 | The value of the request's first path parameter with the given name, or "" when it has none. |
| Weavebox.Context.Text | weavebox.go:248-253 | Never returns an error. The response follows `TextStep`. |
| Weavebox.Context.Redirect | weavebox.go:289-295 | The response and the result follow `RedirectStep`. |
| Weavebox.RouteTable.constructor | weavebox.go:52 | A new router holds no routes. |
| Weavebox.RouteTable.Handle | weavebox.go:167 | Adds exactly one entry under (method, path), for a path that begins with '/'. |
| Weavebox.RouteTable.ServeHTTP | weavebox.go:151-155 | An unmatched request gets only the not-found response and changes no box. A matched one runs the stored closure: its trace is `Run` of the owning box's current middleware plus the handler. Only the owner's context may change: it becomes Background if it was unset, and a bound context is kept. The response follows the trace's calls. |
| Weavebox.Weavebox.New | weavebox.go:50-57 | Default error handler, logging on, empty prefix, no middleware, no context, and a fresh empty router. |
| Weavebox.Weavebox.Copy | weavebox.go:124 | The struct copy has every field equal to the original's and shares its router. |
| Weavebox.Weavebox.BindContext | weavebox.go:109-111 | Sets the context and nothing else. |
| Weavebox.Weavebox.Use | weavebox.go:115-119 | The middleware becomes the old middleware followed by the handlers in argument order. No other field changes. |
| Weavebox.Weavebox.Subrouter | weavebox.go:123-127 | Returns a fresh box holding a fresh `Weavebox`. Its prefix is the parent's prefix concatenated with `p`. Its middleware is the parent's at that instant. It has the same router, error handler, logging switch and context. The parent is not modified. |
| Weavebox.Weavebox.Add | weavebox.go:165-168 | Inserts exactly one entry, keyed by (method, Join(prefix, route)), into the shared table. The entry holds this box's closure for `h`. The joined path must begin with '/'. |
| Weavebox.Weavebox.Get | weavebox.go:77-79 | `add` with method GET. |
| Weavebox.Weavebox.Post | weavebox.go:83-85 | `add` with method POST. |
| Weavebox.Weavebox.Put | weavebox.go:89-91 | `add` with method PUT. |
| Weavebox.Weavebox.Delete | weavebox.go:95-97 | `add` with method DELETE. |
| Weavebox.Weavebox.Invoke | weavebox.go:183-191 | Runs one handler. If it fails, passes the error to the box's error handler. The events and the response follow `Step1`. |
| Weavebox.Weavebox.Dispatch | weavebox.go:170-193 | The context becomes Background only if it was unset; a bound context is kept. The trace is `Run` of the box's middleware as it is at request time, plus the handler. The response follows the trace's calls. |
| Weavebox.Weavebox.RunChain | weavebox.go:182-192 | The middleware loop with early return has trace `Run(mw + [h])`. The response follows the trace's calls. |
| Weavebox.Weavebox.ServeHTTP | weavebox.go:147-157 | The trace is `Run` of the matched box's middleware plus the handler, or only the not-found event. Only the matched box's context may change: it becomes Background if it was unset, and a bound context is kept. The client's response is what the trace's calls produce without a logger. With logging on, the log carries the method, URI, protocol, and the status and size a fresh logger records for those calls. With logging off, nothing is logged. |
| Weavebox.Box.constructor | weavebox.go:124 | A box embeds the given `Weavebox`. |
| Weavebox.Box.Reset | weavebox.go:135-138 | Empties only this box's middleware and returns the same box. |

## Left out

- Serving is not modelled: `Serve`, `ServeTLS`, `init`'s hookup of `NotFoundHandler`, and the writes to `Output`. They are network and process I/O.
- The `writeLog` formatting is left out: host parsing, time stamp, duration and output stream. Clocks and I/O are out of scope. The log is the record `AccessLog(method, URI, protocol, status, size)`.
- Route matching inside `httprouter` is foreign code. That covers wildcard patterns, trailing-slash redirects and 405 answers. A request names the pattern it matched and carries the parameters the router extracted. An unmatched request gets `http.NotFound`'s three writer calls.
- `Static` is left out. It is a file server from `net/http`.
- `JSON`, `DecodeJSON` and `Render` are pass-throughs to `encoding/json` and the template engine. So are `Query`, `Form` and `Header`, which read the request. `Render` also dereferences a possibly nil template engine. `SetTemplateEngine` only stores the engine for `Render`.
- The `context.Context` values and cancellation are opaque. A context is `Background` or a bound identifier.
- Handlers and custom error handlers are application code. A `Script` gives their response calls and results per request.
- Concurrent requests are left out. The lazy context default (weavebox.go:172-174) is modelled for sequential requests only.
- Go slice aliasing is left out. Middleware is a value sequence, so a subrouter and its parent never share storage. In Go, `Subrouter` copies the slice header. If both the subrouter and its parent later append into spare capacity, they can overwrite each other's entries.
- Strings are modelled as one character per byte.
- Status codes are not validated. weavebox.go checks only `Redirect`'s code. The sink accepts any code, as `net/http` did before Go 1.10. Since Go 1.10, `WriteHeader` panics on a code outside 100..999, and that panic is not modelled.
- Header keys are not canonicalised. `http.Header.Set` canonicalises them, so "content-type" and "Content-Type" are one entry there but two here. weavebox.go only sets canonical keys.
- Paths.Clean, Paths.Join, Paths.JoinConcat, Paths.CleanKeepsSegments: only the separator rules of `path.Clean` are modelled (runs of '/', trailing '/', empty path). "." and ".." elements are not resolved. So `Join("/api", "/..")` is "/api/.." here, where Go's `path.Join` gives "/", and `JoinConcat` holds only for this separator-only join.
- Weavebox.Context.Redirect, Http.RedirectStep: only the Location header and the status line of `http.Redirect` are modelled. That is the whole answer for methods other than GET and HEAD. The model does not resolve relative URLs or escape the URL. On GET and HEAD without a Content-Type, it does not set `text/html; charset=utf-8`. On GET, it does not write the short HTML body.
- Pipeline.DefaultErrorHandlerAnswers500, Pipeline.ErrorHandlerCalls: only `http.Error`'s Content-Type, status and body are modelled. It does not model the `X-Content-Type-Options` header or the removal of `Content-Length`.
- Weavebox.Weavebox.Add: requires the joined path to begin with '/' and the (method, path) to be new. `httprouter` panics on a path without a leading '/' and on a duplicate registration. The panics themselves are not modelled. The same holds for `Get`, `Post`, `Put`, `Delete` and `RouteTable.Handle`.
- Weavebox.RouteTable.ServeHTTP: a custom `NotFoundHandler` is not modelled. The not-found answer is always `http.NotFound`'s, which is `http.Error`'s. As for the default error handler, the `X-Content-Type-Options` header and the removal of `Content-Length` are not modelled.
- Http.SinkWrite, Http.Sink.Write, Http.TextStep: the sink does not know the request method. On a HEAD request, `net/http` reports every byte of a write as written but sends no body. Here the bytes go into the body. The logger counts them in both.
- Http.LoggingIsTransparent: the calls cover only `Header`, `WriteHeader` and `Write`, the three writer methods `responseLogger` forwards (weavebox.go:303-319). The logger does not implement `http.Flusher`, `http.Hijacker` or `http.CloseNotifier`. With logging on, which is the default (weavebox.go:55), a handler's type assertion to one of them fails, where it succeeds on `net/http`'s own writer. The model does not capture this.
