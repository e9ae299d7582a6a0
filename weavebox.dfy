/** The application object (`Weavebox`), its subrouters (`Box`), the shared route
    table, the per-route dispatch closure, the request `Context` and the logging
    branch of `ServeHTTP`. */
module Weavebox {
  import opened Wrappers
  import opened Http
  import opened Paths
  import opened Pipeline

  /** A `context.Context` value: the empty background context or one the
      application bound. Its values and cancellation are not modelled. */
  datatype Ctx = Background | Bound(id: nat)

  /** A path parameter extracted by the router. */
  datatype Param = Param(key: string, value: string)

  /** A request after routing: the method, the route pattern the router matched,
      the parameters it extracted, and the fields the access log prints. */
  datatype Request = Request(httpMethod: string, pattern: string, params: seq<Param>, uri: string, proto: string)

  /** The access-log line's fields other than host, time stamp and duration. */
  datatype AccessLog = AccessLog(httpMethod: string, uri: string, proto: string, status: int, size: int)

  /** `Params.ByName`: the value of the first parameter with that key, "" when
      there is none (absent and empty are not told apart). */
  function ByName(ps: seq<Param>, name: string): (v: string)
    ensures (forall i :: 0 <= i < |ps| ==> ps[i].key != name) ==> v == ""
    ensures forall i :: 0 <= i < |ps| && ps[i].key == name && NoKeyBefore(ps, name, i) ==> v == ps[i].value
    decreases |ps|
  {
    if ps == [] then ""
    else if ps[0].key == name then ps[0].value
    else
      assert forall i :: 1 <= i <= |ps| ==> (NoKeyBefore(ps, name, i) <==> NoKeyBefore(ps[1..], name, i - 1));
      ByName(ps[1..], name)
  }

  /** No parameter before index `i` has the key. */
  ghost predicate NoKeyBefore(ps: seq<Param>, name: string, i: int)
    requires 0 <= i <= |ps|
  {
    forall j :: 0 <= j < i ==> ps[j].key != name
  }

  /** The per-request `Context`: background context, path parameters, response
      writer, request, and the box that dispatched it. */
  datatype Context = Context(background: Ctx, vars: seq<Param>, response: Writer, request: Request, app: Weavebox)
  {
    /** The value of the route's first path parameter named `name`, "" when
        the route has none. */
    function Param(name: string): (v: string)
      ensures (forall i :: 0 <= i < |vars| ==> vars[i].key != name) ==> v == ""
      ensures forall i :: 0 <= i < |vars| && vars[i].key == name && NoKeyBefore(vars, name, i) ==> v == vars[i].value
    {
      ByName(vars, name)
    }

    /** Content type text/plain, status `code`, the text as body; never an error
        (the count and error of the body write are dropped). */
    method Text(code: int, text: string) returns (err: Option<Error>)
      modifies response.Objs()
      ensures err == None
      ensures response.State() == TextStep(old(response.State()), code, text)
    {
      response.SetHeader("Content-Type", "text/plain");
      response.WriteHeader(code);
      var _, _ := response.Write(text);
      err := None;
    }

    method Redirect(url: string, code: int) returns (err: Option<Error>)
      modifies response.Objs()
      ensures (response.State(), err) == RedirectStep(old(response.State()), url, code)
    {
      if code < StatusMultipleChoices || code > StatusTemporaryRedirect {
        return Some(InvalidRedirectCode);
      }
      response.SetHeader("Location", url);
      response.WriteHeader(code);
      err := None;
    }

    /** One call a handler makes on its response. */
    method Perform(c: Call)
      modifies response.Objs()
      ensures response.State() == Step(old(response.State()), c)
    {
      match c
      case SetHeader(k, v) => response.SetHeader(k, v);
      case WriteHeader(code) => response.WriteHeader(code);
      case Write(p) => var _, _ := response.Write(p);
      case Text(code, text) => var _ := Text(code, text);
      case Redirect(url, code) => var _ := Redirect(url, code);
    }

    /** A handler's calls on its response, in order. */
    method PerformAll(calls: seq<Call>)
      modifies response.Objs()
      ensures response.State() == Replay(old(response.State()), calls)
    {
      var i := 0;
      while i < |calls|
        invariant 0 <= i <= |calls|
        invariant response.State() == Replay(old(response.State()), calls[..i])
      {
        ReplayAppend(old(response.State()), calls[..i], [calls[i]]);
        assert calls[..i + 1] == calls[..i] + [calls[i]];
        Perform(calls[i]);
        i := i + 1;
      }
      assert calls[..i] == calls;
    }
  }

  datatype Route = Route(httpMethod: string, path: string)

  /** What the router stores per route: the closure `makeHTTPRouterHandle(h)`,
      which captures the box it was registered on and the route's handler. */
  datatype Entry = Entry(owner: Weavebox, handler: Handler)

  /** The router every box of one application shares. Matching a request path
      against the patterns is not modelled: a request names the pattern it matched. */
  class RouteTable {
    var routes: map<Route, Entry>

    constructor ()
      ensures routes == map[]
    {
      routes := map[];
    }

    /** The box whose closure serves the request, if a route matches: the only
        box a request may change. */
    function Matched(r: Request): set<Weavebox>
      reads this
    {
      var key := Route(r.httpMethod, r.pattern);
      if key in routes then {routes[key].owner} else {}
    }

    /** The router panics on a path that does not begin with '/' and on a
        (method, path) registered a second time, so a caller avoids both. */
    method Handle(httpMethod: string, path: string, e: Entry)
      requires |path| > 0 && path[0] == '/'
      requires Route(httpMethod, path) !in routes
      modifies this
      ensures routes == old(routes)[Route(httpMethod, path) := e]
    {
      routes := routes[Route(httpMethod, path) := e];
    }

    /** Looks the request up and runs the stored closure, or the not-found response. */
    method ServeHTTP(w: Writer, r: Request, script: Script) returns (trace: seq<Event>)
      modifies Matched(r)`context, w.Objs()
      ensures Route(r.httpMethod, r.pattern) !in routes ==> trace == [NotFound]
      ensures Route(r.httpMethod, r.pattern) in routes ==>
        var e := routes[Route(r.httpMethod, r.pattern)];
        && trace == Run(e.owner.middleware + [e.handler], script, e.owner.errorHandler)
        && e.owner.context == if old(e.owner.context).None? then Some(Background) else old(e.owner.context)
      ensures w.State() == Replay(old(w.State()), Effects(trace, script))
    {
      var key := Route(r.httpMethod, r.pattern);
      if key in routes {
        var e := routes[key];
        trace := e.owner.Dispatch(e.handler, w, r, script);
      } else {
        w.SetHeader("Content-Type", "text/plain; charset=utf-8");
        w.WriteHeader(StatusNotFound);
        var _, _ := w.Write(NotFoundBody);
        trace := [NotFound];
        assert Effects(trace, script) == NotFoundCalls + [];
        assert NotFoundCalls + [] == NotFoundCalls;
        NotFoundReplay(old(w.State()));
      }
    }
  }

  /** The application. `Box` embeds one by value, so a subrouter is a separate
      `Weavebox` object that shares only the route table. */
  class Weavebox {
    var errorHandler: ErrorHandlerRef
    var enableLog: bool
    const router: RouteTable
    var middleware: seq<Handler>
    var prefix: string
    var context: Option<Ctx>

    constructor New()
      ensures errorHandler == DefaultErrorHandler && enableLog
      ensures prefix == "" && middleware == [] && context == None
      ensures fresh(router) && router.routes == map[]
    {
      router := new RouteTable();
      errorHandler, enableLog := DefaultErrorHandler, true;
      middleware, prefix, context := [], "", None;
    }

    /** The struct copy `*w`. */
    constructor Copy(w: Weavebox)
      ensures errorHandler == w.errorHandler && enableLog == w.enableLog && router == w.router
      ensures middleware == w.middleware && prefix == w.prefix && context == w.context
    {
      errorHandler, enableLog, router := w.errorHandler, w.enableLog, w.router;
      middleware, prefix, context := w.middleware, w.prefix, w.context;
    }

    method BindContext(ctx: Ctx)
      modifies this`context
      ensures context == Some(ctx)
    {
      context := Some(ctx);
    }

    /** Appends the handlers, in argument order, after the middleware already there. */
    method Use(handlers: seq<Handler>)
      modifies this`middleware
      ensures middleware == old(middleware) + handlers
    {
      for i := 0 to |handlers|
        invariant middleware == old(middleware) + handlers[..i]
      {
        middleware := middleware + [handlers[i]];
        assert handlers[..i + 1] == handlers[..i] + [handlers[i]];
      }
      assert handlers[..|handlers|] == handlers;
    }

    /** A new box that starts as a snapshot of this one, with `p` appended to the
        prefix as a plain string; it shares this box's route table. This box is
        not changed. */
    method Subrouter(p: string) returns (b: Box)
      ensures fresh(b) && fresh(b.weavebox)
      ensures b.weavebox.prefix == prefix + p
      ensures b.weavebox.middleware == middleware && b.weavebox.router == router
      ensures b.weavebox.errorHandler == errorHandler && b.weavebox.enableLog == enableLog
      ensures b.weavebox.context == context
    {
      var w := new Weavebox.Copy(this);
      w.prefix := w.prefix + p;
      b := new Box(w);
    }

    /** `add`: registers the route's closure under the joined path in the shared table. */
    method Add(httpMethod: string, route: string, h: Handler)
      requires Join(prefix, route) != "" && Join(prefix, route)[0] == '/'
      requires Route(httpMethod, Join(prefix, route)) !in router.routes
      modifies router
      ensures router.routes == old(router.routes)[Route(httpMethod, Join(prefix, route)) := Entry(this, h)]
    {
      var path := Join(prefix, route);
      router.Handle(httpMethod, path, Entry(this, h));
    }

    method Get(route: string, h: Handler)
      requires Join(prefix, route) != "" && Join(prefix, route)[0] == '/'
      requires Route("GET", Join(prefix, route)) !in router.routes
      modifies router
      ensures router.routes == old(router.routes)[Route("GET", Join(prefix, route)) := Entry(this, h)]
    {
      Add("GET", route, h);
    }

    method Post(route: string, h: Handler)
      requires Join(prefix, route) != "" && Join(prefix, route)[0] == '/'
      requires Route("POST", Join(prefix, route)) !in router.routes
      modifies router
      ensures router.routes == old(router.routes)[Route("POST", Join(prefix, route)) := Entry(this, h)]
    {
      Add("POST", route, h);
    }

    method Put(route: string, h: Handler)
      requires Join(prefix, route) != "" && Join(prefix, route)[0] == '/'
      requires Route("PUT", Join(prefix, route)) !in router.routes
      modifies router
      ensures router.routes == old(router.routes)[Route("PUT", Join(prefix, route)) := Entry(this, h)]
    {
      Add("PUT", route, h);
    }

    method Delete(route: string, h: Handler)
      requires Join(prefix, route) != "" && Join(prefix, route)[0] == '/'
      requires Route("DELETE", Join(prefix, route)) !in router.routes
      modifies router
      ensures router.routes == old(router.routes)[Route("DELETE", Join(prefix, route)) := Entry(this, h)]
    {
      Add("DELETE", route, h);
    }

    /** Runs one handler of the chain on `ctx` and, when it returns an error,
        hands that error to the error handler. */
    method Invoke(ctx: Context, handler: Handler, script: Script) returns (events: seq<Event>)
      modifies ctx.response.Objs()
      ensures events == Step1(handler, script, errorHandler)
      ensures ctx.response.State() == Replay(old(ctx.response.State()), Effects(events, script))
    {
      Step1Effects(ctx.response.State(), handler, script, errorHandler);
      var b := script.Behave(handler);
      ctx.PerformAll(b.calls);
      if b.result.Some? {
        var err := b.result.value;
        ctx.PerformAll(ErrorHandlerCalls(errorHandler, err, script));
        events := [Ran(handler), ErrorHandled(errorHandler, err)];
      } else {
        events := [Ran(handler)];
      }
    }

    /** The closure `makeHTTPRouterHandle(h)` run on one request. It defaults the
        context, reads the middleware as it is NOW (not as it was when the route
        was registered), runs it and then `h`, and stops at the first error,
        which goes to the error handler. */
    method Dispatch(h: Handler, rw: Writer, r: Request, script: Script) returns (trace: seq<Event>)
      modifies this`context, rw.Objs()
      ensures context == if old(context).None? then Some(Background) else old(context)
      ensures trace == Run(middleware + [h], script, errorHandler)
      ensures rw.State() == Replay(old(rw.State()), Effects(trace, script))
    {
      if context.None? {
        context := Some(Background);
      }
      var ctx := Context(context.value, r.params, rw, r, this);
      trace := RunChain(ctx, middleware, h, script);
    }

    /** The loop of the closure: each middleware in order, then `h`; the first
        error goes to the error handler and ends the request. */
    method RunChain(ctx: Context, mw: seq<Handler>, h: Handler, script: Script) returns (trace: seq<Event>)
      modifies ctx.response.Objs()
      ensures trace == Run(mw + [h], script, errorHandler)
      ensures ctx.response.State() == Replay(old(ctx.response.State()), Effects(trace, script))
    {
      ghost var ws0 := ctx.response.State();
      trace := [];
      var i := 0;
      while i < |mw|
        invariant 0 <= i <= |mw|
        invariant forall j :: 0 <= j < i ==> !Fails(script, mw[j])
        invariant trace == Runs(mw[..i])
        invariant ctx.response.State() == Replay(ws0, Effects(trace, script))
      {
        var events := Invoke(ctx, mw[i], script);
        ReplayEffectsAppend(ws0, trace, events, script);
        if Fails(script, mw[i]) {
          ChainEnd(mw, h, i, trace, script, errorHandler);
          trace := trace + events;
          return;
        }
        ChainAdvance(mw, i, trace, script, errorHandler);
        trace := trace + events;
        i := i + 1;
      }
      var events := Invoke(ctx, h, script);
      ReplayEffectsAppend(ws0, trace, events, script);
      ChainEnd(mw, h, i, trace, script, errorHandler);
      trace := trace + events;
    }

    /** With logging on, the response goes through a fresh logger and the log line
        carries the logger's status and size; with it off the sink is used
        directly and nothing is logged. For the modelled calls, the client's response
        is the same either way. */
    method ServeHTTP(rw: Sink, r: Request, script: Script) returns (trace: seq<Event>, log: Option<AccessLog>)
      modifies rw, router.Matched(r)`context
      ensures Route(r.httpMethod, r.pattern) !in router.routes ==> trace == [NotFound]
      ensures Route(r.httpMethod, r.pattern) in router.routes ==>
        var e := router.routes[Route(r.httpMethod, r.pattern)];
        && trace == Run(e.owner.middleware + [e.handler], script, e.owner.errorHandler)
        && e.owner.context == if old(e.owner.context).None? then Some(Background) else old(e.owner.context)
      ensures rw.State() == Replay(WriterState(old(rw.State()), None), Effects(trace, script)).sink
      ensures var ws := Replay(WriterState(old(rw.State()), Some(LoggerState(0, 0))), Effects(trace, script));
        && ws.log.Some?
        && log == if enableLog then Some(AccessLog(r.httpMethod, r.uri, r.proto, ws.log.value.status, ws.log.value.size)) else None
    {
      ghost var s0 := rw.State();
      if enableLog {
        var logger := new ResponseLogger(rw);
        trace := router.ServeHTTP(Logged(logger), r, script);
        LoggingIsTransparent(s0, LoggerState(0, 0), Effects(trace, script));
        log := Some(AccessLog(r.httpMethod, r.uri, r.proto, logger.Status(), logger.Size()));
      } else {
        trace := router.ServeHTTP(Direct(rw), r, script);
        LoggingIsTransparent(s0, LoggerState(0, 0), Effects(trace, script));
        log := None;
      }
    }
  }

  /** A subrouter: a box that embeds its own copy of a `Weavebox`. */
  class Box {
    const weavebox: Weavebox

    constructor (w: Weavebox)
      ensures weavebox == w
    {
      weavebox := w;
    }

    /** Empties this box's middleware and returns the same box; nothing else changes. */
    method Reset() returns (b: Box)
      modifies weavebox`middleware
      ensures b == this && weavebox.middleware == []
    {
      weavebox.middleware := [];
      b := this;
    }
  }
}
