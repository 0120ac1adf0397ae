# runapi request pipeline, modelled in Dafny

This project models the request-middleware pipeline of runapi's `http` package.
A handler is modelled as a function from a request, plus the stream of UUIDs the
generator would hand out, to the trace of events the request causes. The events
are log entries and panics. A middleware maps a handler to a handler.

- `chain` folds the middlewares around a terminal handler, applying them from last to first.
  The first-listed middleware therefore ends up outermost.
- `setRequestID` mints an ID, stores it in a child context under the package's private
  key `keyReqID`, logs it at debug level, and runs the next handler once.
- `logRequest` reads that ID. Its type assertion panics when the ID is missing or is not a
  string. Otherwise it logs method and URL at info level under the ID and forwards
  the identical request.
- The two route pipelines of `ListenAndServe`, `chain(getRoot, setRequestID, logRequest)`
  and `chain(postGitTrigger, setRequestID, logRequest)`, are built by `Routes`.
  The handlers `getRoot` and `postGitTrigger` are parameters.

Files:
- `wrappers.dfy`: the `Option` type.
- `context.dfy`: Go's value contexts. Each `WithValue` child holds one pair and defers
  to its parent. Keys of the unexported `ctxkey` type cannot equal keys of other packages.
- `http.dfy`: request, events, handlers, the three functions of the package, the routes,
  and the lemmas about them.

Modelling choices:
- The UUID source is the parameter `e: Entropy`, the sequence of IDs `uuid.New()` would return.
  `setRequestID` takes `e(0)` and passes the rest of the stream (`Drawn(e)`) on.
- A panic is one `Panic` event that ends the trace. None of the modelled middlewares log
  anything after calling the next handler, so a panic ends the whole request.
- Go's `req.Method` is the field `httpMethod`, because `method` is a Dafny keyword. `req.URL` is
  the string that `%v` prints for it.

## Model

| member | source | states |
|---|---|---|
| `Http.Chain` | http/http.go:42-51 | the counting-down loop returns the right fold of the middlewares: with none it returns `f` itself, otherwise `mw[0]` applied to the chain of the rest; loop invariant: after the step at index i the handler is the fold of `mw[i..]` |
| `Http.FoldAppend` | http/http.go:42-51 | chaining `a + b` equals chaining `a` around the chain of `b`, so each middleware is applied exactly once, in list order |
| `Http.StagesRunInOrder` | http/http.go:42-51 | at request time, chained stages that each emit one event run in the declared order, each exactly once, followed by the terminal handler's trace |
| `Http.SetRequestIDExtends` | http/http.go:55-65 | `setRequestID` first logs a debug entry carrying the fresh ID. It then calls the next handler exactly once, with one drawn ID consumed. That request has the same method and URL, the ID under the private key, and every other context entry unchanged; as a flat map its context is the old one with the ID added |
| `Http.LogRequestInsertsEntry` | http/http.go:67-79 | adding `logRequest` behind `setRequestID` inserts exactly one info entry, carrying the minted ID, method and URL, right after the debug entry, and leaves the rest of the trace unchanged: the next handler runs on the identical request and generator |
| `Http.LogRequestPanics` | http/http.go:71 | the type assertion panics exactly when no string ID is in the context, and then the trace is that panic alone (the next handler never runs) |
| `Http.PipelineTags` | http/http.go:55-79 | for `chain(h, setRequestID, logRequest)` the ID lookup of `logRequest` always succeeds, the trace is debug(id), info(id, method URL), then h's trace, and h sees the minted id |
| `Http.Routes` | http/http.go:28-31 | both routes are `chain(handler, setRequestID, logRequest)` and therefore have the pipeline trace above around their own handler |
| `Http.MisorderedPipelinePanics` | http/http.go:67-71 | listed as `logRequest, setRequestID`, the pipeline panics on every request whose context holds only other packages' keys: the composition order matters |
| `Context.LookupIsMap` | http/http.go:59 | the value found by walking a chain of child contexts is the one in the flat key/value view, with inner entries shadowing outer ones |
| `Context.ForeignContextHasNoOwnKey` | http/http.go:14-18 | a context filled only by other packages holds nothing under any key of the private `ctxkey` type, so `keyReqID` cannot collide |

## Left out

- `ListenAndServe`'s router, method matching, and the `:9001` listen address (http/http.go:25-35) are left out. They are network plumbing and configuration; `Routes` keeps only the two compositions.
- UUID generation (http/http.go:57) is left out. It is randomness from a foreign library, so the IDs are a parameter. Uniqueness across requests and the canonical UUID format are not modelled.
- The logrus setup, formatting and sinks (http/http.go:12, 20-22) are left out. An entry is recorded as its level, fields and message. Whether the sink drops it, for example debug entries below the default level, is not modelled.
- The `http.ResponseWriter` and the response are left out. They are opaque to the pipeline and belong to the terminal handlers.
- `getRoot` and `postGitTrigger` are not part of this model. Their source is not shown, so they are handler parameters.
- `store/postgres.go` is left out entirely. It is a thin wrapper over `database/sql` and its driver, and modelling it would mean inventing database semantics.
- Concurrency between requests is left out. Each run of the pipeline handles one request, but the server runs many runs at once, sharing only the logger and the UUID generator. The model follows one run, and `e` stands for the IDs that run's draws return.
- The cancellation layers of the server's request context are left out. Their `Value` answers only the context package's own private key and passes every other key to the parent, so a lookup of `keyReqID` or of any other package's key gives the same answer without them; `Context` has only the root and `WithValue` children.
- The recovery of panics by the HTTP server is left out. The model stops the request's trace at the panic.
