# noet router, modelled in Dafny

This project models the HTTP routing core of the noet backend, the package `backend/router`:

- `routern` (router-pure.go) is a server configuration. It has a listen address `Port`, a read `Timeout`, a `Handler` and the `Engine` (`http.Server`) that `Invoke` builds from them. The setters validate their argument: ports must lie in 0..65535 and are stored as `":<n>"`; timeouts must lie in 100ms..30s; a nil handler is refused. `Invoke` needs a handler. It replaces an unset (below 100ms) timeout by 5s.
- `handler` (router-pure.go) is the route table. It is a map from an exact URL string to a handler function. `SetupMuxer` validates and inserts an entry. `ServeHTTP` calls the function registered for the request's full URL string, or writes `"URL: " + url` when there is none.
- `router` (router.go) is the gin-based variant. It has a port, a debug flag and a gin engine created by `Invoke`. `Run` falls back to `":8050"` when the port is empty. It refuses to run before `Invoke`.

Each Go struct is a Dafny class with the struct's fields, and each pointer-receiver method is a Dafny method that updates those fields in place. Every method's postcondition equates its new state and its returned `error` with a pure step function on a value of the struct (`RouternState`, `RouterState`, the route map). The properties are proved about those step functions. Some hold for one call (success iff the argument is in range, nothing else changes). Others hold for any sequence of calls from the constructor (invariants, "last registration wins", "Run fails iff never invoked").

Modules: `Results` (`error` as `Outcome`, nil as `Option`), `Format` (`fmt.Sprintf(":%d", pn)` as `PortAddress`, with the parser `ParsePortAddress` as its inverse), `RouterPure` (router-pure.go) and `RouterGin` (router.go).

Modelling choices:
- `time.Duration` is an integer count of nanoseconds: 100ms = 100_000_000, 5s = 5_000_000_000 and 30s = 30_000_000_000.
- Handlers (`*http.Handler`) and handler functions are opaque identifiers (`HandlerRef`, `HandlerFunc`). A nil one is `None`.
- A request is its URL string (`r.URL.String()`). The response is either the call of a registered function or the text written by `io.WriteString`.
- A gin engine is kept only as "present", together with the mode (`release` or `debug`) that `Invoke` selects before creating it. `Run`'s hand-off to `Engine.Run(port)` is the result `Serve(port)`.

Behaviour of the code worth noting:
- The route table is one map keyed by the request's full URL string (`backend/router/router-pure.go:86`, `:102`). The fallback text is `"URL: " + url` (`backend/router/router-pure.go:106`).
- `backend/main.go:43` calls `SetupMuxer` with three arguments, but the definition at `backend/router/router-pure.go:109` takes two. The model follows the definition.
- `routern.SetHandler` may be called after `Invoke`. The engine keeps the handler it was built with.
- `routern.Invoke` changes the timeout only when it is below 100ms (`backend/router/router-pure.go:64-67`).
- `routern.Run` (`backend/router/router-pure.go:78-80`) has no check for a missing engine. The gin `router.Run` does have one (`backend/router/router.go:57-59`).
- The gin `router.Run` sets an empty port to `":8050"` (`backend/router/router.go:53-56`). No router built by `NewRouter` ever has an empty port, because `SetPort` only stores `":<n>"` addresses. So that branch never fires for one (`RouterGin.ReachableRouterServesPortAddress`).

## Model

| member | source | states |
|---|---|---|
| Format.Decimal | backend/router/router-pure.go:47 | `%d` of a non-negative number is canonical: at least one digit, all digits, no leading zero except in "0"; ValueOfDecimal and DecimalOfValue are its inverse partners |
| Format.PortAddress | backend/router/router-pure.go:47 | `fmt.Sprintf(":%d", pn)`: a colon followed by the canonical digits of pn |
| Format.CheckedPortAddress | backend/router/router.go:31-37 | the check and formatting shared by both SetPort methods: an address exactly when 0 <= pn <= 65535, and that address parses back to pn |
| Format.ValueOfDecimal | backend/router/router-pure.go:47 | the digits `%d` prints for a non-negative number read back as that number |
| Format.DecimalOfValue | backend/router/router-pure.go:47 | every canonical digit string (no leading zero) is what `%d` prints for its value, so `%d` is a bijection onto canonical strings |
| Format.PortAddressRoundTrip | backend/router/router-pure.go:47 | for 0 <= pn <= 65535, `":%d"` of pn parses back to pn |
| Format.ParsedPortAddressRoundTrip | backend/router/router-pure.go:47 | every address that parses as a port is exactly `":%d"` of that port |
| Format.PortAddressInjective | backend/router/router-pure.go:47 | distinct port numbers give distinct addresses |
| Format.DefaultAddressIsPort8050 | backend/router/router-pure.go:30 | the default address ":8050" is the address of port 8050 |
| RouterPure.SetHandlerStep | backend/router/router-pure.go:34-41 | succeeds iff the handler is non-nil; then only the handler changes; a nil handler gives "parameter is empty" and no change |
| RouterPure.SetPortStep | backend/router/router-pure.go:43-49 | succeeds iff 0 <= pn <= 65535; then the port parses back to pn and no other field changes; otherwise the out-of-range error and no change |
| RouterPure.SetTimeoutStep | backend/router/router-pure.go:51-58 | succeeds iff 100ms <= d <= 30s; then only the timeout becomes d; otherwise the range error and no change |
| RouterPure.InvokeStep | backend/router/router-pure.go:60-76 | fails with "please set handler first", changing nothing, iff no handler is set; otherwise the timeout becomes 5s if below 100ms, and the engine is (port, handler, that timeout) |
| RouterPure.ReplayKeepsInv | backend/router/router-pure.go:34-76 | any sequence of SetHandler, SetPort, SetTimeout and Invoke calls keeps the invariant (port is ":<0..65535>", timeout unset or in range, an engine only with a handler, a port address and a read timeout in [100ms, 30s]) |
| RouterPure.ReachableRouternInv | backend/router/router-pure.go:28-76 | every routern reachable from NewRoutern satisfies the invariant: its timeout is always 0 or in [100ms, 30s] and any engine's read timeout is in range |
| RouterPure.HandlerStaysSet | backend/router/router-pure.go:34-41 | after a sequence of calls a handler is set iff one was set before or some SetHandler got a non-nil handler |
| RouterPure.InvokeSucceedsIffHandlerSet | backend/router/router-pure.go:60-63 | on a routern built by NewRoutern and a call history, Invoke succeeds iff some SetHandler in the history got a non-nil handler |
| RouterPure.Routern.constructor | backend/router/router-pure.go:28-32 | NewRoutern: port ":8050", timeout 0, no handler, no engine, invariant established |
| RouterPure.Routern.SetHandler | backend/router/router-pure.go:34-41 | new fields and returned error are exactly those of SetHandlerStep; invariant kept |
| RouterPure.Routern.SetPort | backend/router/router-pure.go:43-49 | new fields and returned error are exactly those of SetPortStep; invariant kept |
| RouterPure.Routern.SetTimeout | backend/router/router-pure.go:51-58 | new fields and returned error are exactly those of SetTimeoutStep; invariant kept |
| RouterPure.Routern.Invoke | backend/router/router-pure.go:60-76 | new fields and returned error are exactly those of InvokeStep; invariant kept |
| RouterPure.Register | backend/router/router-pure.go:109-123 | rejects, in this order, an empty path, a path not starting with '/', and a nil function, each with its own message and the map unchanged; otherwise the map gains the path mapped to the function, overwriting, with every other key's value kept; keeps every key a '/'-path |
| RouterPure.Dispatch | backend/router/router-pure.go:101-107 | calls the stored function iff the URL string is a key; otherwise the body is "URL: " followed by the URL verbatim |
| RouterPure.NonPathUrlFallsBack | backend/router/router-pure.go:101-123 | with every key a '/'-path, a URL that is empty or does not start with '/' always gets the fallback text |
| RouterPure.ServeAfterRegistrations | backend/router/router-pure.go:89-123 | on a table built by NewHandler and any sequence of SetupMuxer calls, serving a URL calls the function of the last accepted registration of exactly that URL, and otherwise writes the fallback text |
| RouterPure.Handler.constructor | backend/router/router-pure.go:89-95 | NewHandler: an empty route table |
| RouterPure.Handler.SetupMuxer | backend/router/router-pure.go:109-123 | new map and returned error are exactly those of Register; every key stays a '/'-path |
| RouterPure.Handler.ServeHTTP | backend/router/router-pure.go:101-107 | calls exactly the stored function when the URL string is a key, otherwise writes exactly "URL: " + url |
| RouterGin.SetPortStep | backend/router/router.go:31-37 | succeeds iff 0 <= pn <= 65535; then the port parses back to pn and nothing else changes; otherwise the out-of-range error and no change |
| RouterGin.InvokeStep | backend/router/router.go:39-50 | the engine becomes present, created in release mode unless debug is set; port and debug unchanged |
| RouterGin.RunStep | backend/router/router.go:52-62 | an empty port becomes ":8050" before the engine check, also when Run then fails; fails with "gin engine has not been invoked yet" iff no engine; otherwise serves on the (possibly defaulted) port |
| RouterGin.EngineStaysPresent | backend/router/router.go:39-50 | after a sequence of calls the engine is present iff it was before or the sequence contains Invoke |
| RouterGin.RunFailsIffNotInvoked | backend/router/router.go:39-59 | on a router built by NewRouter and a call history, Run reports the not-invoked error iff the history contains no Invoke |
| RouterGin.ReplayKeepsPortAddress | backend/router/router.go:31-56 | any sequence of calls keeps the port an address ":<0..65535>" |
| RouterGin.ReachableRouterServesPortAddress | backend/router/router.go:23-62 | every router reachable from NewRouter holds, and serves on, an address ":<0..65535>"; Run leaves such a router's state unchanged, so the empty-port fallback never fires for it |
| RouterGin.Router.constructor | backend/router/router.go:23-27 | NewRouter: port ":8050", debug off, no engine |
| RouterGin.Router.SetDebug | backend/router/router.go:29 | debug becomes opt; nothing else changes |
| RouterGin.Router.SetPort | backend/router/router.go:31-37 | new fields and returned error are exactly those of SetPortStep |
| RouterGin.Router.Invoke | backend/router/router.go:39-50 | new fields are exactly those of InvokeStep |
| RouterGin.Router.Run | backend/router/router.go:52-62 | new fields and result are exactly those of RunStep |

## Left out

- `routern.Run` (`Engine.ListenAndServe`) and gin's `Engine.Run`: network serving. The gin `Run` is modelled up to the hand-off, as `Serve(port)`. `routern.Run` has no engine check and would dereference a nil engine before `Invoke`; the model does not include it.
- `handler.ReturnHttpHandler`: it returns the handler itself as an `http.Handler`. The model has no interface values, so it is not needed.
- The gin library calls in `router.Invoke` (`gin.SetMode`, `gin.Default`, `SetTrustedProxies`): foreign code. Only "an engine is present, made in the selected mode" is kept.
- `http.ResponseWriter`, `*http.Request` and `io.WriteString` internals, and the bodies of registered handler functions: the request is its URL string and the response is the call or the written text.
- Concurrent request handling by the HTTP server: the model is sequential.
- `backend/main.go`: flag parsing, process wiring and `log.Fatalln`, which are I/O and glue.
- Go's `int` (32 or 64 bits) and `time.Duration` (int64): the model uses unbounded integers. Every check in the code is a range test with constant bounds (65535, 30s in nanoseconds) that fit those widths, so the results are the same.
- Strings are sequences of characters, while Go compares `path[0]` as a byte and map keys as byte strings. The two agree for valid UTF-8 text. The model does not cover invalid UTF-8.
- RouterPure.Routern.SetHandler / RouterPure.Routern.Invoke: the `*http.Handler` pointer is identified with the handler it points to. Two Go behaviours are therefore not modelled. First, `Invoke` reads `*r.Handler` when it runs, so a write through the pointer between `SetHandler` and `Invoke` would change the server's handler. Second, a non-nil pointer to a nil `http.Handler` passes the nil check and yields a server whose handler is nil.
