/**
 * The gin-based router of backend/router/router.go: a port, a debug flag and
 * an engine that `Invoke` creates and `Run` hands the port to.
 */
module RouterGin {
  import opened Results
  import opened Format

  const ERR_NOT_INVOKED := "gin engine has not been invoked yet"

  /** The gin mode `Invoke` selects before it creates the engine. */
  datatype Mode = Release | Debug

  /** A `*gin.Engine` made by `gin.Default()`; only the mode it was made under is kept. */
  datatype Engine = Engine(mode: Mode)

  /** The value of a `router`: its three fields. */
  datatype RouterState = RouterState(port: string, debug: bool, engine: Option<Engine>)

  /** What `Run` returns: its own error, or whatever the engine returns serving on `addr`. */
  datatype RunResult = NotInvoked(message: string) | Serve(addr: string)

  datatype Ran = Ran(state: RouterState, result: RunResult)

  /** What `NewRouter` returns. */
  const INITIAL_ROUTER := RouterState(DEFAULT_ADDRESS, false, None)

  function SetPortStep(s: RouterState, pn: int): (r: Step<RouterState>)
    ensures r.err.Pass? <==> 0 <= pn <= MAX_PORT
    ensures r.err.Pass? ==> ParsePortAddress(r.state.port) == Some(pn)
    ensures r.err.Pass? ==> r.state == s.(port := r.state.port)
    ensures r.err.Fail? ==> r.state == s && r.err.message == ERR_PORT_RANGE
  {
    match CheckedPortAddress(pn)
    case None => Step(s, Fail(ERR_PORT_RANGE))
    case Some(addr) => Step(s.(port := addr), Pass)
  }

  function InvokeStep(s: RouterState): (r: RouterState)
    ensures r.engine.Some?
    ensures r.engine.value.mode == (if s.debug then Debug else Release)
    ensures r.port == s.port && r.debug == s.debug
  {
    var mode := if !s.debug then Release else Debug;
    s.(engine := Some(Engine(mode)))
  }

  function RunStep(s: RouterState): (r: Ran)
    ensures r.state.port == (if s.port == [] then DEFAULT_ADDRESS else s.port)
    ensures r.state.debug == s.debug && r.state.engine == s.engine
    ensures r.result.NotInvoked? <==> s.engine.None?
    ensures r.result.NotInvoked? ==> r.result.message == ERR_NOT_INVOKED
    ensures r.result.Serve? ==> r.result.addr == r.state.port
  {
    var port := if s.port == [] then DEFAULT_ADDRESS else s.port;
    var s' := s.(port := port);
    if s'.engine.None? then Ran(s', NotInvoked(ERR_NOT_INVOKED))
    else Ran(s', Serve(s'.port))
  }

  /** A call to one of the `Router` interface methods. */
  datatype RouterCall = SetDebug(opt: bool) | SetPort(pn: int) | Invoke | Run

  function Apply(s: RouterState, c: RouterCall): RouterState {
    match c
    case SetDebug(opt) => s.(debug := opt)
    case SetPort(pn) => SetPortStep(s, pn).state
    case Invoke => InvokeStep(s)
    case Run => RunStep(s).state
  }

  function Replay(s: RouterState, calls: seq<RouterCall>): RouterState
    decreases |calls|
  {
    if calls == [] then s else Replay(Apply(s, calls[0]), calls[1..])
  }

  predicate InvokedIn(calls: seq<RouterCall>) {
    exists i :: 0 <= i < |calls| && calls[i].Invoke?
  }

  lemma {:induction false} EngineStaysPresent(s: RouterState, calls: seq<RouterCall>)
    ensures Replay(s, calls).engine.Some? <==> s.engine.Some? || InvokedIn(calls)
    decreases |calls|
  {
    if calls != [] {
      EngineStaysPresent(Apply(s, calls[0]), calls[1..]);
      if InvokedIn(calls[1..]) {
        var i :| 0 <= i < |calls[1..]| && calls[1..][i].Invoke?;
        assert calls[i + 1] == calls[1..][i];
      }
      if InvokedIn(calls) && !calls[0].Invoke? {
        var i :| 0 <= i < |calls| && calls[i].Invoke?;
        assert calls[1..][i - 1] == calls[i];
      }
    }
  }

  /** On a fresh router, `Run` reports the not-invoked error exactly when no `Invoke` came first. */
  lemma RunFailsIffNotInvoked(calls: seq<RouterCall>)
    ensures RunStep(Replay(INITIAL_ROUTER, calls)).result.NotInvoked? <==> !InvokedIn(calls)
  {
    EngineStaysPresent(INITIAL_ROUTER, calls);
  }

  /** Every port a router reachable from `NewRouter` holds is an address ":<0..65535>". */
  lemma {:induction false} ReplayKeepsPortAddress(s: RouterState, calls: seq<RouterCall>)
    requires IsPortAddress(s.port)
    ensures IsPortAddress(Replay(s, calls).port)
    decreases |calls|
  {
    if calls != [] {
      ReplayKeepsPortAddress(Apply(s, calls[0]), calls[1..]);
    }
  }

  /**
   * A router reachable from `NewRouter` never has an empty port, so `Run`'s
   * fallback to the default address never fires for it and `Run` leaves its
   * state as it was.
   */
  lemma ReachableRouterServesPortAddress(calls: seq<RouterCall>)
    ensures IsPortAddress(Replay(INITIAL_ROUTER, calls).port)
    ensures RunStep(Replay(INITIAL_ROUTER, calls)).state == Replay(INITIAL_ROUTER, calls)
    ensures RunStep(Replay(INITIAL_ROUTER, calls)).result.Serve? ==>
      IsPortAddress(RunStep(Replay(INITIAL_ROUTER, calls)).result.addr)
  {
    DefaultAddressIsPort8050();
    ReplayKeepsPortAddress(INITIAL_ROUTER, calls);
  }

  /** The `router` struct, whose methods update its fields in place. */
  class Router {
    var port: string
    var debug: bool
    var engine: Option<Engine>

    function State(): RouterState
      reads this
    {
      RouterState(port, debug, engine)
    }

    /** `NewRouter`. */
    constructor ()
      ensures State() == INITIAL_ROUTER
    {
      port := DEFAULT_ADDRESS;
      debug := false;
      engine := None;
    }

    method SetDebug(opt: bool)
      modifies this
      ensures State() == old(State()).(debug := opt)
    {
      debug := opt;
    }

    method SetPort(pn: int) returns (err: Outcome)
      modifies this
      ensures Step(State(), err) == SetPortStep(old(State()), pn)
    {
      if pn < 0 || pn > MAX_PORT {
        return Fail(ERR_PORT_RANGE);
      }
      port := PortAddress(pn);
      return Pass;
    }

    method Invoke()
      modifies this
      ensures State() == InvokeStep(old(State()))
    {
      var mode := if !debug then Release else Debug;
      engine := Some(Engine(mode));
    }

    method Run() returns (result: RunResult)
      modifies this
      ensures Ran(State(), result) == RunStep(old(State()))
    {
      if port == [] {
        port := DEFAULT_ADDRESS;
      }
      if engine.None? {
        return NotInvoked(ERR_NOT_INVOKED);
      }
      return Serve(port);
    }
  }
}
