/** Client code that builds small applications and serves requests with them;
    every assertion follows from the contracts of the members it calls. */
module Scenarios {
  import opened Wrappers
  import opened Http
  import opened Paths
  import opened Pipeline
  import opened Weavebox

  /** A literal path in clean form, checked one separator at a time. */
  lemma LiteralRoute(p: string)
    requires 1 < |p| && p[0] == '/' && p[|p| - 1] != '/'
    requires forall i :: 1 <= i < |p| ==> p[i] != '/' || p[i - 1] != '/'
    ensures IsCleanRoute(p)
  {
    forall i | 0 <= i < |p| - 1
      ensures !(p[i] == '/' && p[i + 1] == '/')
    {
      assert p[i + 1] != '/' || p[(i + 1) - 1] != '/';
    }
  }

  /** `Subrouter("/api").Subrouter("/v1").Get("/x", h)` serves `/api/v1/x`, and the
      route is in the application's own table. */
  method NestedSubrouterPrefix()
  {
    var app := new Weavebox.New();
    var api := app.Subrouter("/api");
    var v1 := api.weavebox.Subrouter("/v1");
    assert v1.weavebox.prefix == "/api/v1";
    LiteralRoute("/api/v1");
    LiteralRoute("/x");
    JoinConcat("/api/v1", "/x");
    assert "/api/v1" + "/x" == "/api/v1/x";
    v1.weavebox.Get("/x", Handler(1));
    assert Route("GET", "/api/v1/x") in app.router.routes;
    assert app.prefix == "" && api.weavebox.prefix == "/api";
  }

  /** The trace of a chain none of whose handlers the script knows: each runs. */
  lemma {:induction false} SucceedingChain(chain: seq<Handler>, script: Script)
    requires script == Script(map[], map[])
    ensures Run(chain, script, DefaultErrorHandler) == Runs(chain)
    decreases |chain|
  {
    if chain != [] {
      SucceedingChain(chain[1..], script);
    }
  }

  /** `New()`, `Use(a)`, a subrouter on "/s", `Use(b)` on the parent, then
      `Get("/r", h)` on the subrouter. */
  method SnapshotApp(a: Handler, b: Handler, h: Handler) returns (app: Weavebox, sub: Box)
    ensures fresh(app) && fresh(app.router) && fresh(sub.weavebox)
    ensures app.router.routes == map[Route("GET", "/s/r") := Entry(sub.weavebox, h)]
    ensures sub.weavebox.middleware == [a] && app.middleware == [a, b]
    ensures sub.weavebox.errorHandler == DefaultErrorHandler
  {
    app := new Weavebox.New();
    app.Use([a]);
    sub := app.Subrouter("/s");
    app.Use([b]);
    assert sub.weavebox.prefix == "/s";
    LiteralRoute("/s");
    LiteralRoute("/r");
    JoinConcat("/s", "/r");
    assert "/s" + "/r" == "/s/r";
    sub.weavebox.Get("/r", h);
  }

  /** Middleware added to the parent after a subrouter was taken does not reach
      the subrouter's routes. */
  method SubrouterSnapshot()
  {
    var a, b, h := Handler(1), Handler(2), Handler(3);
    var app, sub := SnapshotApp(a, b, h);
    var script := Script(map[], map[]);
    SucceedingChain([a, h], script);
    assert [a] + [h] == [a, h];
    var sink := new Sink(100);
    var t, _ := app.ServeHTTP(sink, Request("GET", "/s/r", [], "/s/r", "HTTP/1.1"), script);
    assert t == [Ran(a), Ran(h)];
  }

  /** `New()` followed by `Get(route, h)`. */
  method AppWithRoute(route: string, h: Handler) returns (app: Weavebox)
    requires IsCleanRoute(route)
    ensures fresh(app) && fresh(app.router)
    ensures app.router.routes == map[Route("GET", route) := Entry(app, h)]
    ensures app.middleware == [] && app.enableLog && app.errorHandler == DefaultErrorHandler && app.context == None
  {
    app := new Weavebox.New();
    JoinConcat("", route);
    assert "" + route == route;
    app.Get(route, h);
  }

  /** Middleware registered after a route still runs for that route, since the
      route's handler reads the box's middleware at request time. */
  method UseAfterGet()
  {
    var m, h := Handler(1), Handler(2);
    LiteralRoute("/q");
    var app := AppWithRoute("/q", h);
    app.Use([m]);
    var script := Script(map[], map[]);
    SucceedingChain([m, h], script);
    assert [m] + [h] == [m, h];
    var sink := new Sink(100);
    var t, _ := app.ServeHTTP(sink, Request("GET", "/q", [], "/q", "HTTP/1.1"), script);
    assert t == [Ran(m), Ran(h)];
  }

  /** What `Text(200, "pong")` does to a fresh response, with and without a logger. */
  lemma PingFacts(h: Handler, script: Script, s0: SinkState)
    requires script == Script(map[h := Behaviour([Text(200, "pong")], None)], map[])
    requires s0 == SinkState(map[], None, map[], "", 100)
    ensures Run([h], script, DefaultErrorHandler) == [Ran(h)]
    ensures var ws := Replay(WriterState(s0, Some(LoggerState(0, 0))), Effects([Ran(h)], script));
      ws.log == Some(LoggerState(200, 4)) && ws.sink.status == Some(200) && ws.sink.body == "pong"
    ensures Replay(WriterState(s0, None), Effects([Ran(h)], script)).sink.body == "pong"
  {
    assert [h][1..] == [];
    var calls := [Text(200, "pong")];
    assert Effects([Ran(h)], script) == calls by {
      assert Effects([Ran(h)], script) == calls + Effects([], script);
      assert calls + [] == calls;
    }
    assert calls[1..] == [];
    LoggingIsTransparent(s0, LoggerState(0, 0), calls);
  }

  /** A GET of /ping answered with `Text(200, "pong")` is logged with status 200
      and size 4. */
  method PingIsLogged()
  {
    var h := Handler(1);
    LiteralRoute("/ping");
    var app := AppWithRoute("/ping", h);
    var script := Script(map[h := Behaviour([Text(200, "pong")], None)], map[]);
    var sink := new Sink(100);
    PingFacts(h, script, sink.State());
    assert [] + [h] == [h];
    var t, log := app.ServeHTTP(sink, Request("GET", "/ping", [], "/ping", "HTTP/1.1"), script);
    assert t == [Ran(h)];
    assert log == Some(AccessLog("GET", "/ping", "HTTP/1.1", 200, 4));
    assert sink.body == "pong";
  }

  /** What the default error handler does to a fresh response after a middleware
      fails with "denied". */
  lemma DeniedFacts(m: Handler, h: Handler, e: Error, script: Script, s0: SinkState)
    requires m != h && e == Error("denied")
    requires script == Script(map[m := Behaviour([], Some(e))], map[])
    requires s0 == SinkState(map[], None, map[], "", 100)
    ensures Run([m, h], script, DefaultErrorHandler) == [Ran(m), ErrorHandled(DefaultErrorHandler, e)]
    ensures var t := [Ran(m), ErrorHandled(DefaultErrorHandler, e)];
      var ws := Replay(WriterState(s0, Some(LoggerState(0, 0))), Effects(t, script));
      && ws.log == Some(LoggerState(500, 7)) && ws.sink.status == Some(500) && ws.sink.body == "denied\n"
      && Replay(WriterState(s0, None), Effects(t, script)).sink == ws.sink
  {
    var t := [Ran(m), ErrorHandled(DefaultErrorHandler, e)];
    var calls := ErrorHandlerCalls(DefaultErrorHandler, e, script);
    assert t[1..] == [t[1]] && [t[1]][1..] == [];
    assert Effects(t, script) == calls by {
      assert Effects([t[1]], script) == calls + Effects([], script);
      assert calls + [] == calls;
    }
    DefaultErrorHandlerAnswers500(WriterState(s0, Some(LoggerState(0, 0))), e, script);
    LoggingIsTransparent(s0, LoggerState(0, 0), calls);
  }

  /** A failing middleware stops the request: the route's handler does not run
      and the default error handler answers 500 with the message. */
  method FailingMiddleware()
  {
    var m, h := Handler(1), Handler(2);
    LiteralRoute("/q");
    var app := AppWithRoute("/q", h);
    app.Use([m]);
    var e := Error("denied");
    var script := Script(map[m := Behaviour([], Some(e))], map[]);
    var sink := new Sink(100);
    DeniedFacts(m, h, e, script, sink.State());
    assert [m] + [h] == [m, h];
    var t, log := app.ServeHTTP(sink, Request("GET", "/q", [], "/q", "HTTP/1.1"), script);
    assert t == [Ran(m), ErrorHandled(DefaultErrorHandler, e)];
    assert sink.status == Some(500) && sink.body == "denied\n";
    assert log == Some(AccessLog("GET", "/q", "HTTP/1.1", 500, 7));
  }

  /** A context bound with `BindContext` survives every request: a matched one
      (which keeps a bound context) and an unmatched one (which changes no box).
      A box that never had one gets Background on its first request. */
  method BoundContextSurvives()
  {
    var h := Handler(1);
    LiteralRoute("/q");
    var app := AppWithRoute("/q", h);
    var sub := app.Subrouter("/s");
    app.BindContext(Bound(7));
    assert sub.weavebox.context == None;
    var script := Script(map[], map[]);
    var sink := new Sink(100);
    var _, _ := app.ServeHTTP(sink, Request("GET", "/missing", [], "/missing", "HTTP/1.1"), script);
    assert app.context == Some(Bound(7)) && sub.weavebox.context == None;
    var _, _ := app.ServeHTTP(sink, Request("GET", "/q", [], "/q", "HTTP/1.1"), script);
    assert app.context == Some(Bound(7)) && sub.weavebox.context == None;
  }

  /** On a POST, `Redirect(url, 200)` is refused and writes nothing;
      `Redirect(url, 302)` sends the status with a Location header. */
  method RedirectCodes(app: Weavebox)
  {
    var sink := new Sink(100);
    var ctx := Context(Background, [Param("id", "7")], Direct(sink), Request("POST", "/items/:id", [], "/items/7", "HTTP/1.1"), app);
    assert ctx.Param("id") == "7" && ctx.Param("missing") == "";
    var err := ctx.Redirect("/home", 200);
    assert err == Some(InvalidRedirectCode) && sink.status == None && sink.header == map[];
    err := ctx.Redirect("/home", 302);
    assert err == None && sink.status == Some(302) && sink.sent == map["Location" := "/home"];
  }

  /** `Reset` empties only the subrouter's middleware. */
  method ResetOnlyTheBox()
  {
    var a, b := Handler(1), Handler(2);
    var app := new Weavebox.New();
    app.Use([a]);
    var s := app.Subrouter("/s");
    s.weavebox.Use([b]);
    assert s.weavebox.middleware == [a, b];
    var r := s.Reset();
    assert r == s && s.weavebox.middleware == [] && app.middleware == [a];
    assert s.weavebox.prefix == "/s" && s.weavebox.router == app.router;
  }
}
