/** The response side of a request: the underlying `http.ResponseWriter` (a sink
    with a header map, a committed status and a body), the access-log wrapper
    `responseLogger` that counts what passes through it, and the calls that
    handlers make on a response. Every object here has a pure state and a pure
    step function; the methods are proved to follow the step functions. */
module Http {
  import opened Wrappers

  datatype Error = Error(message: string)

  const StatusOK := 200
  const StatusMultipleChoices := 300
  const StatusTemporaryRedirect := 307
  const StatusNoContent := 204
  const StatusNotModified := 304

  /** The error `Context.Redirect` returns for a code outside 300..307. */
  const InvalidRedirectCode := Error("invalid redirect code")
  /** The error a sink returns when it accepted fewer bytes than it was given. */
  const ShortWrite := Error("short write")
  /** The error `net/http` returns for body bytes after a status that allows no body. */
  const ErrBodyNotAllowed := Error("http: request method or response status code does not allow body")

  /** `net/http` refuses a body after a 1xx, 204 (No Content) or 304 (Not
      Modified) status line. */
  predicate BodyAllowed(code: int)
  {
    !(100 <= code <= 199 || code == StatusNoContent || code == StatusNotModified)
  }

  /** An `http.ResponseWriter`: the header map handlers edit, the status line once
      it is committed, the header as it was sent with that status line (empty
      before), the body bytes (one character per byte), and how many more bytes
      the connection accepts. What the client receives is `status`, `sent` and
      `body`: an edit of `header` after the commit is never sent. */
  datatype SinkState = SinkState(header: map<string, string>, status: Option<int>, sent: map<string, string>, body: string, room: nat)

  /** The two counters of `responseLogger`. */
  datatype LoggerState = LoggerState(status: int, size: int)

  /** A response writer as handlers see it: the sink, and the logger's counters
      when the sink is wrapped in a logger. */
  datatype WriterState = WriterState(sink: SinkState, log: Option<LoggerState>)

  /** The status line is committed by the first WriteHeader; later ones are ignored. */
  function SinkWriteHeader(s: SinkState, code: int): (r: SinkState)
    ensures r.status == if s.status.None? then Some(code) else s.status
    ensures r.sent == if s.status.None? then s.header else s.sent
    ensures r.header == s.header && r.body == s.body && r.room == s.room
  {
    if s.status.None? then s.(status := Some(code), sent := s.header) else s
  }

  /** A body write commits status 200 if nothing was committed. When the
      committed status allows a body, it appends as many bytes as the connection
      accepts; otherwise it takes none. It returns the count it took. */
  function SinkWrite(s: SinkState, p: string): (r: (SinkState, nat))
    ensures r.1 <= |p| && r.1 <= s.room
    ensures var committed := if s.status.None? then StatusOK else s.status.value;
      if BodyAllowed(committed) then (r.1 == |p| <==> |p| <= s.room) else r.1 == 0
    ensures r.0.body == s.body + p[..r.1] && r.0.room == s.room - r.1
    ensures r.0.status == if s.status.None? then Some(StatusOK) else s.status
    ensures r.0.sent == if s.status.None? then s.header else s.sent
    ensures r.0.header == s.header
  {
    var c := SinkWriteHeader(s, StatusOK);
    var n := if !BodyAllowed(c.status.value) then 0 else if |p| <= s.room then |p| else s.room;
    (c.(body := s.body + p[..n], room := s.room - n), n)
  }

  /** An underlying `http.ResponseWriter`. */
  class Sink {
    var header: map<string, string>
    var status: Option<int>
    var sent: map<string, string>
    var body: string
    var room: nat

    function State(): SinkState
      reads this
    {
      SinkState(header, status, sent, body, room)
    }

    constructor (room: nat)
      ensures State() == SinkState(map[], None, map[], "", room)
    {
      header, status, sent, body := map[], None, map[], "";
      this.room := room;
    }

    /** `Header().Set(key, value)`. */
    method SetHeader(key: string, value: string)
      modifies this
      ensures State() == old(State()).(header := old(header)[key := value])
    {
      header := header[key := value];
    }

    method WriteHeader(code: int)
      modifies this
      ensures State() == SinkWriteHeader(old(State()), code)
    {
      if status.None? {
        status, sent := Some(code), header;
      }
    }

    /** An empty write succeeds; a write after a status that allows no body
        fails with `ErrBodyNotAllowed`; a write that does not fit is short. */
    method Write(p: string) returns (n: nat, err: Option<Error>)
      modifies this
      ensures (State(), n) == SinkWrite(old(State()), p)
      ensures err == if n == |p| then None else if BodyAllowed(status.value) then Some(ShortWrite) else Some(ErrBodyNotAllowed)
    {
      if status.None? {
        status, sent := Some(StatusOK), header;
      }
      if |p| == 0 {
        n, err := 0, None;
        assert body + p[..n] == body;
      } else if !BodyAllowed(status.value) {
        n, err := 0, Some(ErrBodyNotAllowed);
        assert body + p[..n] == body;
      } else {
        n := if |p| <= room then |p| else room;
        body := body + p[..n];
        room := room - n;
        err := if n < |p| then Some(ShortWrite) else None;
      }
    }
  }

  /** The access-log wrapper: it forwards every call to `w` and records the last
      status code and the number of bytes `w` accepted. */
  class ResponseLogger {
    const w: Sink
    var status: int
    var size: int

    function State(): LoggerState
      reads this
    {
      LoggerState(status, size)
    }

    constructor (w: Sink)
      ensures this.w == w && State() == LoggerState(0, 0)
    {
      this.w := w;
      status, size := 0, 0;
    }

    method Write(p: string) returns (n: nat, err: Option<Error>)
      modifies this, w
      ensures (w.State(), n) == SinkWrite(old(w.State()), p)
      ensures err == if n == |p| then None else if BodyAllowed(w.status.value) then Some(ShortWrite) else Some(ErrBodyNotAllowed)
      ensures status == (if old(status) == 0 then StatusOK else old(status))
      ensures size == old(size) + n
    {
      if status == 0 {
        status := StatusOK;
      }
      n, err := w.Write(p);
      size := size + n;
    }

    method WriteHeader(code: int)
      modifies this, w
      ensures w.State() == SinkWriteHeader(old(w.State()), code)
      ensures status == code && size == old(size)
    {
      w.WriteHeader(code);
      status := code;
    }

    function Status(): (r: int)
      reads this
      ensures r == State().status
    {
      status
    }

    function Size(): (r: int)
      reads this
      ensures r == State().size
    {
      size
    }
  }

  /** `Header().Set` on a writer; the logger forwards it to the sink's header. */
  function HeaderStep(ws: WriterState, key: string, value: string): (r: WriterState)
    ensures r.sink.header == ws.sink.header[key := value]
    ensures r.sink.status == ws.sink.status && r.sink.sent == ws.sink.sent
    ensures r.sink.body == ws.sink.body && r.sink.room == ws.sink.room
    ensures r.log == ws.log
  {
    ws.(sink := ws.sink.(header := ws.sink.header[key := value]))
  }

  /** `WriteHeader(code)` on a writer: the sink keeps its first status, the logger
      takes the latest one. */
  function WriteHeaderStep(ws: WriterState, code: int): (r: WriterState)
    ensures r.sink == SinkWriteHeader(ws.sink, code)
    ensures r.log.Some? <==> ws.log.Some?
    ensures ws.log.Some? ==> r.log.value == LoggerState(code, ws.log.value.size)
  {
    WriterState(SinkWriteHeader(ws.sink, code), if ws.log.Some? then Some(ws.log.value.(status := code)) else None)
  }

  /** `Write(p)` on a writer: the logger defaults its status to 200 and adds the
      count the sink returned. */
  function WriteStep(ws: WriterState, p: string): (r: (WriterState, nat))
    ensures (r.0.sink, r.1) == SinkWrite(ws.sink, p)
    ensures r.0.log.Some? <==> ws.log.Some?
    ensures ws.log.Some? ==> r.0.log.value.size == ws.log.value.size + r.1
    ensures ws.log.Some? ==> r.0.log.value.status == if ws.log.value.status == 0 then StatusOK else ws.log.value.status
  {
    var (s, n) := SinkWrite(ws.sink, p);
    (WriterState(s, if ws.log.Some? then Some(LoggerState(if ws.log.value.status == 0 then StatusOK else ws.log.value.status, ws.log.value.size + n)) else None), n)
  }

  /** `Context.Text(code, text)`: content type text/plain, status `code`, then the
      text as the body, unless the status sent allows no body. Through a logger the recorded status is `code` (200 when
      `code` is 0, since WriteHeader(0) leaves the counter at its "unset" value) and
      the recorded size is what the sink accepted. */
  function TextStep(ws: WriterState, code: int, text: string): (r: WriterState)
    ensures r.sink.header == ws.sink.header["Content-Type" := "text/plain"]
    ensures r.sink.status == if ws.sink.status.None? then Some(code) else ws.sink.status
    ensures r.sink.sent == if ws.sink.status.None? then r.sink.header else ws.sink.sent
    ensures !BodyAllowed(r.sink.status.value) ==> r.sink.body == ws.sink.body && r.sink.room == ws.sink.room
    ensures BodyAllowed(r.sink.status.value) && |text| <= ws.sink.room ==> r.sink.body == ws.sink.body + text && r.sink.room == ws.sink.room - |text|
    ensures BodyAllowed(r.sink.status.value) && ws.sink.room < |text| ==> r.sink.body == ws.sink.body + text[..ws.sink.room] && r.sink.room == 0
    ensures r.log.Some? <==> ws.log.Some?
    ensures ws.log.Some? ==> r.log.value.status == (if code == 0 then StatusOK else code)
    ensures ws.log.Some? ==> r.log.value.size == ws.log.value.size + (|r.sink.body| - |ws.sink.body|)
  {
    WriteStep(WriteHeaderStep(HeaderStep(ws, "Content-Type", "text/plain"), code), text).0
  }

  predicate IsRedirectCode(code: int)
  {
    StatusMultipleChoices <= code <= StatusTemporaryRedirect
  }

  /** `Context.Redirect(url, code)`: a code outside 300..307 is refused with an
      error and nothing is written; otherwise the Location header is set and the
      status is written, and no error is returned. */
  function RedirectStep(ws: WriterState, url: string, code: int): (r: (WriterState, Option<Error>))
    ensures r.1.Some? <==> code < 300 || code > 307
    ensures r.1.Some? ==> r.0 == ws && r.1.value == InvalidRedirectCode
    ensures r.1.None? ==> r.0.sink.header == ws.sink.header["Location" := url]
    ensures r.1.None? ==> r.0.sink.status == (if ws.sink.status.None? then Some(code) else ws.sink.status)
    ensures r.1.None? ==> r.0.sink.sent == (if ws.sink.status.None? then r.0.sink.header else ws.sink.sent)
    ensures r.1.None? ==> r.0.sink.body == ws.sink.body && r.0.sink.room == ws.sink.room
    ensures r.1.None? && ws.log.Some? ==> r.0.log == Some(LoggerState(code, ws.log.value.size))
  {
    if !IsRedirectCode(code) then (ws, Some(InvalidRedirectCode))
    else (WriteHeaderStep(HeaderStep(ws, "Location", url), code), None)
  }

  /** A call a handler makes on its response, directly or through the Context helpers. */
  datatype Call =
    | SetHeader(key: string, value: string)
    | WriteHeader(code: int)
    | Write(data: string)
    | Text(code: int, text: string)
    | Redirect(url: string, code: int)

  function Step(ws: WriterState, c: Call): WriterState
  {
    match c
    case SetHeader(k, v) => HeaderStep(ws, k, v)
    case WriteHeader(code) => WriteHeaderStep(ws, code)
    case Write(p) => WriteStep(ws, p).0
    case Text(code, text) => TextStep(ws, code, text)
    case Redirect(url, code) => RedirectStep(ws, url, code).0
  }

  /** The writer state after a sequence of calls, in order. */
  function Replay(ws: WriterState, calls: seq<Call>): WriterState
    decreases |calls|
  {
    if calls == [] then ws else Replay(Step(ws, calls[0]), calls[1..])
  }

  lemma {:induction false} ReplayAppend(ws: WriterState, a: seq<Call>, b: seq<Call>)
    ensures Replay(ws, a + b) == Replay(Replay(ws, a), b)
    decreases |a|
  {
    if a != [] {
      assert (a + b)[0] == a[0] && (a + b)[1..] == a[1..] + b;
      ReplayAppend(Step(ws, a[0]), a[1..], b);
    } else {
      assert a + b == b;
    }
  }

  /** For the modelled calls, wrapping the sink in a logger changes nothing the
      client sees: the sink ends in the same state with or without the logger. */
  lemma {:induction false} LoggingIsTransparent(s: SinkState, l: LoggerState, calls: seq<Call>)
    ensures Replay(WriterState(s, Some(l)), calls).sink == Replay(WriterState(s, None), calls).sink
    ensures Replay(WriterState(s, Some(l)), calls).log.Some?
    ensures Replay(WriterState(s, None), calls).log.None?
    decreases |calls|
  {
    if calls != [] {
      var a := Step(WriterState(s, Some(l)), calls[0]);
      var b := Step(WriterState(s, None), calls[0]);
      assert a.sink == b.sink && a.log.Some? && b.log.None?;
      LoggingIsTransparent(a.sink, a.log.value, calls[1..]);
    }
  }

  /** The logger's size grows by exactly the number of bytes the sink appended to
      the body, and the body only grows. */
  lemma {:induction false} LoggedSizeIsBodyGrowth(ws: WriterState, calls: seq<Call>)
    requires ws.log.Some?
    ensures var r := Replay(ws, calls);
      && r.log.Some?
      && ws.sink.body <= r.sink.body
      && r.log.value.size == ws.log.value.size + (|r.sink.body| - |ws.sink.body|)
    decreases |calls|
  {
    if calls != [] {
      var a := Step(ws, calls[0]);
      assert a.log.Some? && ws.sink.body <= a.sink.body;
      assert a.log.value.size == ws.log.value.size + (|a.sink.body| - |ws.sink.body|);
      LoggedSizeIsBodyGrowth(a, calls[1..]);
    }
  }

  predicate NonZeroCode(c: Call)
  {
    match c
    case WriteHeader(code) => code != 0
    case Text(code, _) => code != 0
    case _ => true
  }

  /** "Logger and sink agree whether a status was sent": with no call passing
      status 0, the logger's status is still unset exactly when the sink has not
      committed a status line. */
  lemma {:induction false} LoggedStatusSetIffCommitted(ws: WriterState, calls: seq<Call>)
    requires ws.log.Some? && (ws.log.value.status == 0 <==> ws.sink.status.None?)
    requires forall i :: 0 <= i < |calls| ==> NonZeroCode(calls[i])
    ensures var r := Replay(ws, calls);
      r.log.Some? && (r.log.value.status == 0 <==> r.sink.status.None?)
    decreases |calls|
  {
    if calls != [] {
      var a := Step(ws, calls[0]);
      assert NonZeroCode(calls[0]);
      assert a.log.Some? && (a.log.value.status == 0 <==> a.sink.status.None?);
      LoggedStatusSetIffCommitted(a, calls[1..]);
    }
  }

  /** The logger records the LAST status written while the client received the
      FIRST: a handler that answers 200 and then writes 500 is logged as 500. */
  lemma LoggedStatusMayDifferFromSent()
    ensures var ws := WriterState(SinkState(map[], None, map[], "", 16), Some(LoggerState(0, 0)));
      var r := Replay(ws, [Text(200, "ok"), WriteHeader(500)]);
      r.sink.status == Some(200) && r.log == Some(LoggerState(500, 2))
  {
    var ws := WriterState(SinkState(map[], None, map[], "", 16), Some(LoggerState(0, 0)));
    var w1 := Step(ws, Text(200, "ok"));
    assert w1.sink.status == Some(200) && w1.log == Some(LoggerState(200, 2));
    assert Replay(ws, [Text(200, "ok"), WriteHeader(500)]) == Replay(w1, [WriteHeader(500)]);
  }

  /** Once a status line is committed, the header sent with it never changes,
      and neither does the status: later header edits and codes do not reach
      the client. */
  lemma {:induction false} CommittedResponseIsFinal(ws: WriterState, calls: seq<Call>)
    requires ws.sink.status.Some?
    ensures var r := Replay(ws, calls);
      r.sink.status == ws.sink.status && r.sink.sent == ws.sink.sent
    decreases |calls|
  {
    if calls != [] {
      var a := Step(ws, calls[0]);
      assert a.sink.status == ws.sink.status && a.sink.sent == ws.sink.sent;
      CommittedResponseIsFinal(a, calls[1..]);
    }
  }

  /** After a status that allows no body, no call adds to the body. */
  lemma {:induction false} BodylessStatusKeepsBody(ws: WriterState, calls: seq<Call>)
    requires ws.sink.status.Some? && !BodyAllowed(ws.sink.status.value)
    ensures Replay(ws, calls).sink.body == ws.sink.body
    decreases |calls|
  {
    if calls != [] {
      var a := Step(ws, calls[0]);
      assert a.sink.status == ws.sink.status && a.sink.body == ws.sink.body;
      BodylessStatusKeepsBody(a, calls[1..]);
    }
  }

  /** `Text(204, "x")` through a logger: the client gets 204 and no body, and
      the logger records 204 and size 0. */
  lemma NoContentTextIsBodyless()
    ensures var ws := WriterState(SinkState(map[], None, map[], "", 16), Some(LoggerState(0, 0)));
      var r := Replay(ws, [Text(204, "x")]);
      r.sink.status == Some(204) && r.sink.body == "" && r.log == Some(LoggerState(204, 0))
  {
    var ws := WriterState(SinkState(map[], None, map[], "", 16), Some(LoggerState(0, 0)));
    assert Replay(ws, [Text(204, "x")]) == Replay(Step(ws, Text(204, "x")), []);
  }

  /** A redirect after `Text` has committed 200 sends neither its code nor its
      Location header; the Location only lands in the unsent header map. */
  lemma LateRedirectIsNotSent()
    ensures var ws := WriterState(SinkState(map[], None, map[], "", 16), None);
      var r := Replay(ws, [Text(200, "ok"), Redirect("/home", 302)]);
      && r.sink.status == Some(200)
      && r.sink.sent == map["Content-Type" := "text/plain"]
      && "Location" in r.sink.header
  {
    var ws := WriterState(SinkState(map[], None, map[], "", 16), None);
    var w1 := Step(ws, Text(200, "ok"));
    assert w1.sink.status == Some(200) && w1.sink.sent == map["Content-Type" := "text/plain"];
    assert Replay(ws, [Text(200, "ok"), Redirect("/home", 302)]) == Replay(w1, [Redirect("/home", 302)]);
    CommittedResponseIsFinal(w1, [Redirect("/home", 302)]);
  }

  /** A response writer as handlers hold it: the sink itself, or the sink wrapped
      in an access logger. */
  datatype Writer = Direct(sink: Sink) | Logged(logger: ResponseLogger)
  {
    function Objs(): set<object>
    {
      match this
      case Direct(s) => {s}
      case Logged(l) => {l, l.w}
    }

    function State(): WriterState
      reads Objs()
    {
      match this
      case Direct(s) => WriterState(s.State(), None)
      case Logged(l) => WriterState(l.w.State(), Some(l.State()))
    }

    method SetHeader(key: string, value: string)
      modifies Objs()
      ensures State() == HeaderStep(old(State()), key, value)
    {
      match this
      case Direct(s) => s.SetHeader(key, value);
      case Logged(l) => l.w.SetHeader(key, value);
    }

    method WriteHeader(code: int)
      modifies Objs()
      ensures State() == WriteHeaderStep(old(State()), code)
    {
      match this
      case Direct(s) => s.WriteHeader(code);
      case Logged(l) => l.WriteHeader(code);
    }

    method Write(p: string) returns (n: nat, err: Option<Error>)
      modifies Objs()
      ensures (State(), n) == WriteStep(old(State()), p)
      ensures err == if n == |p| then None else if BodyAllowed(State().sink.status.value) then Some(ShortWrite) else Some(ErrBodyNotAllowed)
    {
      match this
      case Direct(s) => n, err := s.Write(p);
      case Logged(l) => n, err := l.Write(p);
    }
  }
}
