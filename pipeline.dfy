/** The per-request dispatch state machine of a route: Start, the box's middleware
    in order, the route's handler, End; the first handler that returns an error
    goes straight to the error handler and then End. Handlers are application
    code, so they are opaque here: a `Script` says, for one request, which
    response calls each handler makes and which error it returns. */
module Pipeline {
  import opened Wrappers
  import opened Http

  datatype Handler = Handler(id: nat)

  /** The box's `ErrorHandler`: the default one that `New` installs, or one the
      application set. */
  datatype ErrorHandlerRef = DefaultErrorHandler | CustomErrorHandler(id: nat)

  /** What a handler does on this request: its calls on the response, then its result. */
  datatype Behaviour = Behaviour(calls: seq<Call>, result: Option<Error>)

  /** The application's side of one request: the behaviour of each handler (a
      handler not listed writes nothing and succeeds) and the calls each custom
      error handler makes (at most one error is handled per request). */
  datatype Script = Script(handlers: map<Handler, Behaviour>, errorHandlers: map<nat, seq<Call>>)
  {
    function Behave(h: Handler): Behaviour
    {
      if h in handlers then handlers[h] else Behaviour([], None)
    }
  }

  datatype Event = Ran(handler: Handler) | ErrorHandled(errorHandler: ErrorHandlerRef, err: Error) | NotFound

  const StatusInternalServerError := 500
  const StatusNotFound := 404
  const NotFoundBody := "404 page not found\n"

  /** The router's answer when no route matches: `http.NotFound`. */
  const NotFoundCalls := [SetHeader("Content-Type", "text/plain; charset=utf-8"), WriteHeader(StatusNotFound), Write(NotFoundBody)]

  predicate Fails(script: Script, h: Handler)
  {
    script.Behave(h).result.Some?
  }

  /** The default error handler answers with `http.Error(w, err.Error(), 500)`. */
  function ErrorHandlerCalls(eh: ErrorHandlerRef, e: Error, script: Script): (r: seq<Call>)
    ensures eh.DefaultErrorHandler? ==>
      && r == [SetHeader("Content-Type", "text/plain; charset=utf-8"), WriteHeader(StatusInternalServerError), Write(e.message + "\n")]
    ensures eh.CustomErrorHandler? ==>
      r == if eh.id in script.errorHandlers then script.errorHandlers[eh.id] else []
  {
    match eh
    case DefaultErrorHandler =>
      [SetHeader("Content-Type", "text/plain; charset=utf-8"), WriteHeader(StatusInternalServerError), Write(e.message + "\n")]
    case CustomErrorHandler(id) => if id in script.errorHandlers then script.errorHandlers[id] else []
  }

  /** The trace of running a chain of handlers (the middleware followed by the
      route's handler): each one runs until the first that fails, whose error is
      handed to `eh`. */
  function Run(chain: seq<Handler>, script: Script, eh: ErrorHandlerRef): (t: seq<Event>)
    ensures |t| <= |chain| + 1
    decreases |chain|
  {
    if chain == [] then []
    else
      match script.Behave(chain[0]).result
      case Some(e) => [Ran(chain[0]), ErrorHandled(eh, e)]
      case None => [Ran(chain[0])] + Run(chain[1..], script, eh)
  }

  /** The index of the first handler in the chain that fails, |chain| if none does. */
  function FirstFailure(chain: seq<Handler>, script: Script): (k: nat)
    ensures k <= |chain|
    ensures forall j :: 0 <= j < k ==> !Fails(script, chain[j])
    ensures k < |chain| ==> Fails(script, chain[k])
    decreases |chain|
  {
    if chain == [] then 0
    else if Fails(script, chain[0]) then 0
    else 1 + FirstFailure(chain[1..], script)
  }

  /** The shape of every dispatch: the handlers up to and including the first
      failing one run, in chain order, and then the error handler is called once
      with that handler's error; when none fails, every handler runs and nothing else. */
  lemma {:induction false} RunShape(chain: seq<Handler>, script: Script, eh: ErrorHandlerRef)
    ensures var t, k := Run(chain, script, eh), FirstFailure(chain, script);
      && (k < |chain| ==> |t| == k + 2 && t[k + 1] == ErrorHandled(eh, script.Behave(chain[k]).result.value))
      && (k == |chain| ==> |t| == |chain|)
      && forall i :: 0 <= i <= k && i < |chain| ==> t[i] == Ran(chain[i])
    decreases |chain|
  {
    if chain != [] && !Fails(script, chain[0]) {
      RunShape(chain[1..], script, eh);
      var t, k := Run(chain, script, eh), FirstFailure(chain, script);
      var t', k' := Run(chain[1..], script, eh), FirstFailure(chain[1..], script);
      assert t == [Ran(chain[0])] + t' && k == k' + 1;
      forall i | 0 <= i <= k && i < |chain|
        ensures t[i] == Ran(chain[i])
      {
        if i > 0 {
          assert t[i] == t'[i - 1] && chain[i] == chain[1..][i - 1];
        }
      }
    }
  }

  /** The events of running one handler: it runs, and its error (if any) goes to `eh`. */
  function Step1(h: Handler, script: Script, eh: ErrorHandlerRef): seq<Event>
  {
    match script.Behave(h).result
    case Some(e) => [Ran(h), ErrorHandled(eh, e)]
    case None => [Ran(h)]
  }

  /** One step of the state machine: the first handler runs, and the rest of the
      chain runs only when it succeeded. */
  lemma RunCons(chain: seq<Handler>, script: Script, eh: ErrorHandlerRef)
    requires chain != []
    ensures Run(chain, script, eh) == Step1(chain[0], script, eh) + if Fails(script, chain[0]) then [] else Run(chain[1..], script, eh)
  {
  }

  /** The events of handlers that ran and succeeded, in order. */
  function Runs(hs: seq<Handler>): (t: seq<Event>)
    ensures |t| == |hs|
    ensures forall i :: 0 <= i < |hs| ==> t[i] == Ran(hs[i])
    decreases |hs|
  {
    if hs == [] then [] else [Ran(hs[0])] + Runs(hs[1..])
  }

  lemma RunsSnoc(hs: seq<Handler>, i: nat)
    requires i < |hs|
    ensures Runs(hs[..i + 1]) == Runs(hs[..i]) + [Ran(hs[i])]
  {
  }

  /** Dispatch up to handler `i`, when every earlier handler succeeded and `i` is
      the last of the chain or fails: the earlier ones ran, then `i`'s step. */
  lemma {:induction false} RunUpTo(chain: seq<Handler>, i: nat, script: Script, eh: ErrorHandlerRef)
    requires i < |chain|
    requires forall j :: 0 <= j < i ==> !Fails(script, chain[j])
    requires Fails(script, chain[i]) || i == |chain| - 1
    ensures Run(chain, script, eh) == Runs(chain[..i]) + Step1(chain[i], script, eh)
    decreases i
  {
    RunCons(chain, script, eh);
    if i == 0 {
      if !Fails(script, chain[0]) {
        assert chain[1..] == [];
      }
    } else {
      assert !Fails(script, chain[0]);
      forall j | 0 <= j < i - 1 ensures !Fails(script, chain[1..][j]) {
        assert chain[1..][j] == chain[j + 1];
      }
      RunUpTo(chain[1..], i - 1, script, eh);
      assert chain[1..][..i - 1] == chain[..i][1..];
      assert Runs(chain[..i]) == [Ran(chain[0])] + Runs(chain[..i][1..]);
    }
  }

  /** The dispatch loop's step when middleware `i` succeeds. */
  lemma ChainAdvance(mw: seq<Handler>, i: nat, trace: seq<Event>, script: Script, eh: ErrorHandlerRef)
    requires i < |mw| && trace == Runs(mw[..i]) && !Fails(script, mw[i])
    ensures trace + Step1(mw[i], script, eh) == Runs(mw[..i + 1])
  {
    RunsSnoc(mw, i);
  }

  /** The dispatch loop's last step: middleware `i` failed, or every middleware
      succeeded and `i` is the route's handler. */
  lemma ChainEnd(mw: seq<Handler>, h: Handler, i: nat, trace: seq<Event>, script: Script, eh: ErrorHandlerRef)
    requires i <= |mw| && trace == Runs(mw[..i])
    requires forall j :: 0 <= j < i ==> !Fails(script, mw[j])
    requires i < |mw| ==> Fails(script, mw[i])
    ensures trace + Step1(if i < |mw| then mw[i] else h, script, eh) == Run(mw + [h], script, eh)
  {
    var chain := mw + [h];
    assert chain[..i] == mw[..i] && chain[i] == if i < |mw| then mw[i] else h;
    RunUpTo(chain, i, script, eh);
  }

  /** Short-circuit: once a handler fails, no later handler runs. Every handler that
      runs is the next one of the chain, and after a failure only the error
      handler follows. */
  lemma ShortCircuit(chain: seq<Handler>, script: Script, eh: ErrorHandlerRef, i: nat)
    requires i < |chain| && Fails(script, chain[i])
    ensures var t := Run(chain, script, eh);
      forall j :: 0 <= j < |t| && t[j].Ran? ==> j <= i && t[j] == Ran(chain[j])
  {
    RunShape(chain, script, eh);
    var k := FirstFailure(chain, script);
    assert k <= i;
  }

  /** How many times the error handler is called in a trace. */
  function ErrorCount(t: seq<Event>): (n: nat)
    ensures n <= |t|
    ensures n == 0 <==> forall i :: 0 <= i < |t| ==> !t[i].ErrorHandled?
    decreases |t|
  {
    if t == [] then 0
    else (if t[0].ErrorHandled? then 1 else 0) + ErrorCount(t[1..])
  }

  /** The error handler is called exactly once when some handler of the chain
      fails and never otherwise, and then with the first failing handler's error
      as the last event. */
  lemma {:induction false} ErrorHandledOnceIffFailure(chain: seq<Handler>, script: Script, eh: ErrorHandlerRef)
    ensures var t := Run(chain, script, eh);
      ErrorCount(t) == if exists j :: 0 <= j < |chain| && Fails(script, chain[j]) then 1 else 0
    ensures var t, k := Run(chain, script, eh), FirstFailure(chain, script);
      k < |chain| ==> t[|t| - 1] == ErrorHandled(eh, script.Behave(chain[k]).result.value)
    decreases |chain|
  {
    RunShape(chain, script, eh);
    if chain != [] {
      var t := Run(chain, script, eh);
      if Fails(script, chain[0]) {
        assert t[1..][1..] == [];
      } else {
        ErrorHandledOnceIffFailure(chain[1..], script, eh);
        assert t[1..] == Run(chain[1..], script, eh);
        if exists j :: 0 <= j < |chain| && Fails(script, chain[j]) {
          var j :| 0 <= j < |chain| && Fails(script, chain[j]);
          assert j > 0 && Fails(script, chain[1..][j - 1]);
        } else {
          forall j | 0 <= j < |chain[1..]| ensures !Fails(script, chain[1..][j]) {
            assert chain[1..][j] == chain[j + 1];
          }
        }
      }
    }
  }

  /** The route's handler runs exactly when every middleware succeeded. */
  lemma HandlerRunsIffMiddlewareSucceeds(mw: seq<Handler>, h: Handler, script: Script, eh: ErrorHandlerRef)
    ensures var t := Run(mw + [h], script, eh);
      (|t| > |mw| && t[|mw|] == Ran(h)) <==> forall j :: 0 <= j < |mw| ==> !Fails(script, mw[j])
  {
    var chain := mw + [h];
    RunShape(chain, script, eh);
    var t, k := Run(chain, script, eh), FirstFailure(chain, script);
    if forall j :: 0 <= j < |mw| ==> !Fails(script, mw[j]) {
      assert forall j :: 0 <= j < |mw| ==> chain[j] == mw[j];
      assert chain[|mw|] == h;
    } else {
      var j :| 0 <= j < |mw| && Fails(script, mw[j]);
      assert chain[j] == mw[j];
      assert k <= j;
    }
  }

  /** Replaying the not-found calls is `http.NotFound`'s three writer calls in order. */
  lemma NotFoundReplay(ws: WriterState)
    ensures Replay(ws, NotFoundCalls)
      == WriteStep(WriteHeaderStep(HeaderStep(ws, "Content-Type", "text/plain; charset=utf-8"), StatusNotFound), NotFoundBody).0
  {
    var w1 := Step(ws, NotFoundCalls[0]);
    var w2 := Step(w1, NotFoundCalls[1]);
    assert Replay(ws, NotFoundCalls) == Replay(w1, NotFoundCalls[1..]);
    assert Replay(w1, NotFoundCalls[1..]) == Replay(w2, NotFoundCalls[2..]);
    var w3 := Step(w2, NotFoundCalls[2]);
    assert Replay(w2, NotFoundCalls[2..]) == Replay(w3, []);
  }

  /** The response calls a trace performs, event by event. */
  function EventCalls(e: Event, script: Script): seq<Call>
  {
    match e
    case Ran(h) => script.Behave(h).calls
    case ErrorHandled(eh, err) => ErrorHandlerCalls(eh, err, script)
    case NotFound => NotFoundCalls
  }

  function Effects(t: seq<Event>, script: Script): seq<Call>
    decreases |t|
  {
    if t == [] then [] else EventCalls(t[0], script) + Effects(t[1..], script)
  }

  lemma {:induction false} EffectsAppend(a: seq<Event>, b: seq<Event>, script: Script)
    ensures Effects(a + b, script) == Effects(a, script) + Effects(b, script)
    decreases |a|
  {
    if a == [] {
      assert a + b == b;
    } else {
      assert (a + b)[0] == a[0] && (a + b)[1..] == a[1..] + b;
      EffectsAppend(a[1..], b, script);
    }
  }

  /** Extending the trace performs the new events' calls after the earlier ones. */
  lemma ReplayEffectsAppend(ws: WriterState, a: seq<Event>, b: seq<Event>, script: Script)
    ensures Replay(ws, Effects(a + b, script)) == Replay(Replay(ws, Effects(a, script)), Effects(b, script))
  {
    EffectsAppend(a, b, script);
    ReplayAppend(ws, Effects(a, script), Effects(b, script));
  }

  /** The calls of one handler's step: its own, then the error handler's if it failed. */
  lemma Step1Effects(ws: WriterState, h: Handler, script: Script, eh: ErrorHandlerRef)
    ensures var w1 := Replay(ws, script.Behave(h).calls);
      Replay(ws, Effects(Step1(h, script, eh), script))
        == if Fails(script, h) then Replay(w1, ErrorHandlerCalls(eh, script.Behave(h).result.value, script)) else w1
  {
    var calls := script.Behave(h).calls;
    if Fails(script, h) {
      var e := script.Behave(h).result.value;
      var t := Step1(h, script, eh);
      assert t == [Ran(h)] + [ErrorHandled(eh, e)];
      assert Effects([ErrorHandled(eh, e)], script) == ErrorHandlerCalls(eh, e, script) + [];
      assert Effects([Ran(h)], script) == calls + [] == calls;
      assert ErrorHandlerCalls(eh, e, script) + [] == ErrorHandlerCalls(eh, e, script);
      ReplayEffectsAppend(ws, [Ran(h)], [ErrorHandled(eh, e)], script);
    } else {
      assert Effects([Ran(h)], script) == calls + [];
      assert calls + [] == calls;
    }
  }

  /** The default error handler's answer: through a logger the request is logged
      with status 500 and the message (with its newline) as the counted body,
      when the connection takes it all. */
  lemma DefaultErrorHandlerAnswers500(ws: WriterState, e: Error, script: Script)
    requires ws.log.Some? && ws.sink.status.None? && |e.message| + 1 <= ws.sink.room
    ensures var r := Replay(ws, ErrorHandlerCalls(DefaultErrorHandler, e, script));
      && r.sink.status == Some(StatusInternalServerError)
      && r.sink.body == ws.sink.body + e.message + "\n"
      && r.sink.sent == ws.sink.header["Content-Type" := "text/plain; charset=utf-8"]
      && r.log == Some(LoggerState(StatusInternalServerError, ws.log.value.size + |e.message| + 1))
  {
    var calls := ErrorHandlerCalls(DefaultErrorHandler, e, script);
    var w1 := Step(ws, calls[0]);
    var w2 := Step(w1, calls[1]);
    var w3 := Step(w2, calls[2]);
    assert Replay(ws, calls) == Replay(w1, calls[1..]);
    assert Replay(w1, calls[1..]) == Replay(w2, calls[2..]);
    assert Replay(w2, calls[2..]) == Replay(w3, []);
  }
}
