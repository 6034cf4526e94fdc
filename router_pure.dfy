/**
 * The hand-written HTTP router of backend/router/router-pure.go:
 * `routern`, the server configuration that is validated field by field and
 * then turned into an `http.Server`, and `handler`, the exact-match route
 * table that serves requests.
 */
module RouterPure {
  import opened Results
  import opened Format

  // ---------------------------------------------------------------------
  // Durations: Go's time.Duration, in nanoseconds.

  type Duration = int

  const MILLISECOND: Duration := 1_000_000
  const SECOND: Duration := 1_000_000_000

  const MIN_TIMEOUT: Duration := 100 * MILLISECOND
  const MAX_TIMEOUT: Duration := 30 * SECOND
  const DEFAULT_TIMEOUT: Duration := 5 * SECOND

  predicate InTimeoutRange(d: Duration) {
    MIN_TIMEOUT <= d <= MAX_TIMEOUT
  }

  const ERR_NIL_HANDLER := "parameter is empty"
  const ERR_TIMEOUT_RANGE := "duration can't be smaller than 100ms or larger than 30s"
  const ERR_NO_HANDLER := "please set handler first"
  const ERR_EMPTY_PATH := "invalid path, path is empty"
  const ERR_NO_SLASH := "invalid path, need to begin with / (forward slash)"
  const ERR_NIL_FUNCTION := "invalid function, function parameter is empty"

  // ---------------------------------------------------------------------
  // routern

  /** The `http.Handler` a `*http.Handler` points to; only its identity matters here. */
  datatype HandlerRef = HandlerRef(id: nat)

  /** The fields of the `http.Server` that `Invoke` fills in. */
  datatype Server = Server(addr: string, handler: HandlerRef, readTimeout: Duration)

  /** The value of a `routern`: its four fields. */
  datatype RouternState = RouternState(
    port: string,
    timeout: Duration,
    engine: Option<Server>,
    handler: Option<HandlerRef>)

  /** What `NewRoutern` returns: only the port is set. */
  const INITIAL_ROUTERN := RouternState(DEFAULT_ADDRESS, 0, None, None)

  /**
   * What holds of every routern the methods can produce: the port is an
   * address ":<0..65535>", the timeout is unset or in range, and an engine
   * exists only once a handler is set, listening on a port address with an
   * in-range read timeout.
   */
  predicate Inv(s: RouternState) {
    && IsPortAddress(s.port)
    && (s.timeout == 0 || InTimeoutRange(s.timeout))
    && (s.engine.Some? ==>
          && s.handler.Some?
          && IsPortAddress(s.engine.value.addr)
          && InTimeoutRange(s.engine.value.readTimeout))
  }

  function SetHandlerStep(s: RouternState, h: Option<HandlerRef>): (r: Step<RouternState>)
    ensures r.err.Pass? <==> h.Some?
    ensures r.err.Pass? ==> r.state == s.(handler := h)
    ensures r.err.Fail? ==> r.state == s && r.err.message == ERR_NIL_HANDLER
  {
    if h.None? then Step(s, Fail(ERR_NIL_HANDLER))
    else Step(s.(handler := h), Pass)
  }

  function SetPortStep(s: RouternState, pn: int): (r: Step<RouternState>)
    ensures r.err.Pass? <==> 0 <= pn <= MAX_PORT
    ensures r.err.Pass? ==> ParsePortAddress(r.state.port) == Some(pn)
    ensures r.err.Pass? ==> r.state == s.(port := r.state.port)
    ensures r.err.Fail? ==> r.state == s && r.err.message == ERR_PORT_RANGE
  {
    match CheckedPortAddress(pn)
    case None => Step(s, Fail(ERR_PORT_RANGE))
    case Some(addr) => Step(s.(port := addr), Pass)
  }

  function SetTimeoutStep(s: RouternState, d: Duration): (r: Step<RouternState>)
    ensures r.err.Pass? <==> InTimeoutRange(d)
    ensures r.err.Pass? ==> r.state == s.(timeout := d)
    ensures r.err.Fail? ==> r.state == s && r.err.message == ERR_TIMEOUT_RANGE
  {
    if d < MIN_TIMEOUT || d > MAX_TIMEOUT then Step(s, Fail(ERR_TIMEOUT_RANGE))
    else Step(s.(timeout := d), Pass)
  }

  function InvokeStep(s: RouternState): (r: Step<RouternState>)
    ensures r.err.Pass? <==> s.handler.Some?
    ensures r.err.Fail? ==> r.state == s && r.err.message == ERR_NO_HANDLER
    ensures r.err.Pass? ==>
      && r.state.port == s.port
      && r.state.handler == s.handler
      && r.state.timeout == (if s.timeout < MIN_TIMEOUT then DEFAULT_TIMEOUT else s.timeout)
      && r.state.engine == Some(Server(s.port, s.handler.value, r.state.timeout))
  {
    if s.handler.None? then Step(s, Fail(ERR_NO_HANDLER))
    else
      var timeout := if s.timeout < MIN_TIMEOUT then DEFAULT_TIMEOUT else s.timeout;
      Step(s.(timeout := timeout, engine := Some(Server(s.port, s.handler.value, timeout))), Pass)
  }

  /** A call to one of the `Routern` interface methods other than `Run`. */
  datatype RouternCall =
    | SetHandler(h: Option<HandlerRef>)
    | SetPort(pn: int)
    | SetTimeout(d: Duration)
    | Invoke

  function Apply(s: RouternState, c: RouternCall): Step<RouternState> {
    match c
    case SetHandler(h) => SetHandlerStep(s, h)
    case SetPort(pn) => SetPortStep(s, pn)
    case SetTimeout(d) => SetTimeoutStep(s, d)
    case Invoke => InvokeStep(s)
  }

  /** The routern left by a sequence of calls, errors ignored as callers may. */
  function Replay(s: RouternState, calls: seq<RouternCall>): RouternState
    decreases |calls|
  {
    if calls == [] then s else Replay(Apply(s, calls[0]).state, calls[1..])
  }

  predicate HandlerEverSet(calls: seq<RouternCall>) {
    exists i :: 0 <= i < |calls| && calls[i].SetHandler? && calls[i].h.Some?
  }

  lemma {:induction false} ReplayKeepsInv(s: RouternState, calls: seq<RouternCall>)
    requires Inv(s)
    ensures Inv(Replay(s, calls))
    decreases |calls|
  {
    if calls != [] {
      ReplayKeepsInv(Apply(s, calls[0]).state, calls[1..]);
    }
  }

  /** Every routern reachable from `NewRoutern` satisfies the invariant. */
  lemma ReachableRouternInv(calls: seq<RouternCall>)
    ensures Inv(Replay(INITIAL_ROUTERN, calls))
  {
    DefaultAddressIsPort8050();
    ReplayKeepsInv(INITIAL_ROUTERN, calls);
  }

  /** Once set, a handler stays set: no call clears it. */
  lemma {:induction false} HandlerStaysSet(s: RouternState, calls: seq<RouternCall>)
    ensures Replay(s, calls).handler.Some? <==> s.handler.Some? || HandlerEverSet(calls)
    decreases |calls|
  {
    if calls != [] {
      HandlerStaysSet(Apply(s, calls[0]).state, calls[1..]);
      if HandlerEverSet(calls[1..]) {
        var i :| 0 <= i < |calls[1..]| && calls[1..][i].SetHandler? && calls[1..][i].h.Some?;
        assert calls[i + 1] == calls[1..][i];
      }
      if HandlerEverSet(calls) && !(calls[0].SetHandler? && calls[0].h.Some?) {
        var i :| 0 <= i < |calls| && calls[i].SetHandler? && calls[i].h.Some?;
        assert calls[1..][i - 1] == calls[i];
      }
    }
  }

  /** `Invoke` on a fresh routern succeeds exactly when some earlier `SetHandler` got a non-nil handler. */
  lemma InvokeSucceedsIffHandlerSet(calls: seq<RouternCall>)
    ensures InvokeStep(Replay(INITIAL_ROUTERN, calls)).err.Pass? <==> HandlerEverSet(calls)
  {
    HandlerStaysSet(INITIAL_ROUTERN, calls);
  }

  /** The `routern` struct, whose pointer-receiver methods update its fields in place. */
  class Routern {
    var port: string
    var timeout: Duration
    var engine: Option<Server>
    var handler: Option<HandlerRef>

    function State(): RouternState
      reads this
    {
      RouternState(port, timeout, engine, handler)
    }

    ghost predicate Valid()
      reads this
    {
      Inv(State())
    }

    /** `NewRoutern`. */
    constructor ()
      ensures State() == INITIAL_ROUTERN && Valid()
    {
      port := DEFAULT_ADDRESS;
      timeout := 0;
      engine := None;
      handler := None;
      new;
      DefaultAddressIsPort8050();
    }

    method SetHandler(h: Option<HandlerRef>) returns (err: Outcome)
      requires Valid()
      modifies this
      ensures Valid()
      ensures Step(State(), err) == SetHandlerStep(old(State()), h)
    {
      if h.None? {
        return Fail(ERR_NIL_HANDLER);
      }
      handler := h;
      return Pass;
    }

    method SetPort(pn: int) returns (err: Outcome)
      requires Valid()
      modifies this
      ensures Valid()
      ensures Step(State(), err) == SetPortStep(old(State()), pn)
    {
      if pn < 0 || pn > MAX_PORT {
        return Fail(ERR_PORT_RANGE);
      }
      port := PortAddress(pn);
      PortAddressRoundTrip(pn);
      return Pass;
    }

    method SetTimeout(d: Duration) returns (err: Outcome)
      requires Valid()
      modifies this
      ensures Valid()
      ensures Step(State(), err) == SetTimeoutStep(old(State()), d)
    {
      if d < MIN_TIMEOUT || d > MAX_TIMEOUT {
        return Fail(ERR_TIMEOUT_RANGE);
      }
      timeout := d;
      return Pass;
    }

    method Invoke() returns (err: Outcome)
      requires Valid()
      modifies this
      ensures Valid()
      ensures Step(State(), err) == InvokeStep(old(State()))
    {
      if handler.None? {
        return Fail(ERR_NO_HANDLER);
      }
      if timeout < MIN_TIMEOUT {
        timeout := DEFAULT_TIMEOUT;
      }
      var newServer := Server(port, handler.value, timeout);
      engine := Some(newServer);
      return Pass;
    }
  }

  // ---------------------------------------------------------------------
  // handler: the route table

  /** A `func(http.ResponseWriter, *http.Request)`; only its identity matters here. */
  datatype HandlerFunc = HandlerFunc(id: nat)

  /** What serving a request does: call a registered function, or write a text body. */
  datatype Response = Call(f: HandlerFunc) | Write(body: string)

  const FALLBACK_PREFIX := "URL: "

  predicate IsRoutePath(path: string) {
    |path| > 0 && path[0] == '/'
  }

  /** Every key of the route table is a path that starts with '/'. */
  predicate RoutesWellFormed(mux: map<string, HandlerFunc>) {
    forall path :: path in mux ==> IsRoutePath(path)
  }

  /** What `SetupMuxer` does to the route table. */
  function Register(mux: map<string, HandlerFunc>, path: string, fn: Option<HandlerFunc>)
    : (r: Step<map<string, HandlerFunc>>)
    ensures r.err.Pass? <==> IsRoutePath(path) && fn.Some?
    ensures path == [] ==> r.err == Fail(ERR_EMPTY_PATH)
    ensures path != [] && path[0] != '/' ==> r.err == Fail(ERR_NO_SLASH)
    ensures IsRoutePath(path) && fn.None? ==> r.err == Fail(ERR_NIL_FUNCTION)
    ensures r.err.Fail? ==> r.state == mux
    ensures r.err.Pass? ==>
      && r.state.Keys == mux.Keys + {path}
      && r.state[path] == fn.value
      && (forall p :: p in mux && p != path ==> r.state[p] == mux[p])
    ensures RoutesWellFormed(mux) ==> RoutesWellFormed(r.state)
  {
    if path == [] then Step(mux, Fail(ERR_EMPTY_PATH))
    else if path[0] != '/' then Step(mux, Fail(ERR_NO_SLASH))
    else if fn.None? then Step(mux, Fail(ERR_NIL_FUNCTION))
    else Step(mux[path := fn.value], Pass)
  }

  /** What `ServeHTTP` does with a request whose URL prints as `url`. */
  function Dispatch(mux: map<string, HandlerFunc>, url: string): (r: Response)
    ensures r.Call? <==> url in mux
    ensures r.Call? ==> r.f == mux[url]
    ensures r.Write? ==> r.body == FALLBACK_PREFIX + url
  {
    if url in mux then Call(mux[url]) else Write(FALLBACK_PREFIX + url)
  }

  /** With a well-formed table, a URL that does not start with '/' always gets the fallback text. */
  lemma NonPathUrlFallsBack(mux: map<string, HandlerFunc>, url: string)
    requires RoutesWellFormed(mux)
    requires !IsRoutePath(url)
    ensures Dispatch(mux, url) == Write(FALLBACK_PREFIX + url)
  {
  }

  /** A `SetupMuxer(path, fn)` call. */
  datatype Registration = Registration(path: string, fn: Option<HandlerFunc>)

  function RegisterAll(mux: map<string, HandlerFunc>, regs: seq<Registration>): map<string, HandlerFunc>
    decreases |regs|
  {
    if regs == [] then mux
    else Register(RegisterAll(mux, regs[..|regs| - 1]), regs[|regs| - 1].path, regs[|regs| - 1].fn).state
  }

  /** The function of the last accepted registration of `url`, if any. */
  function LastRegistered(regs: seq<Registration>, url: string): Option<HandlerFunc>
    decreases |regs|
  {
    if regs == [] then None
    else
      var last := regs[|regs| - 1];
      if last.path == url && IsRoutePath(url) && last.fn.Some? then last.fn
      else LastRegistered(regs[..|regs| - 1], url)
  }

  /**
   * Serving a table built by `NewHandler` and a sequence of `SetupMuxer`
   * calls: the last accepted registration of the exact URL wins, and a URL
   * never accepted gets the fallback text.
   */
  lemma {:induction false} ServeAfterRegistrations(regs: seq<Registration>, url: string)
    ensures Dispatch(RegisterAll(map[], regs), url) ==
      match LastRegistered(regs, url)
      case Some(f) => Call(f)
      case None => Write(FALLBACK_PREFIX + url)
    decreases |regs|
  {
    if regs != [] {
      ServeAfterRegistrations(regs[..|regs| - 1], url);
    }
  }

  /** The `handler` struct, whose `Mux` map `SetupMuxer` updates in place. */
  class Handler {
    var mux: map<string, HandlerFunc>

    ghost predicate Valid()
      reads this
    {
      RoutesWellFormed(mux)
    }

    /** `NewHandler`. */
    constructor ()
      ensures mux == map[] && Valid()
    {
      mux := map[];
    }

    method SetupMuxer(path: string, fn: Option<HandlerFunc>) returns (err: Outcome)
      requires Valid()
      modifies this
      ensures Valid()
      ensures Step(mux, err) == Register(old(mux), path, fn)
    {
      if path == [] {
        return Fail(ERR_EMPTY_PATH);
      }
      if path[0] != '/' {
        return Fail(ERR_NO_SLASH);
      }
      if fn.None? {
        return Fail(ERR_NIL_FUNCTION);
      }
      mux := mux[path := fn.value];
      return Pass;
    }

    method ServeHTTP(url: string) returns (resp: Response)
      ensures url in mux ==> resp == Call(mux[url])
      ensures url !in mux ==> resp == Write(FALLBACK_PREFIX + url)
      ensures resp == Dispatch(mux, url)
    {
      if url in mux {
        return Call(mux[url]);
      }
      return Write(FALLBACK_PREFIX + url);
    }
  }
}
