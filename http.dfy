/**
 Package http of runapi: the middleware pipeline that every route is built
 from. A handler turns a request into the trace of events it causes; a
 middleware wraps a handler into another handler.
 */
module Http {
  import opened Wrappers
  import opened Context

  /** The private key under which the request ID is stored (`keyReqID`, the
      first value of the unexported type `ctxkey`). */
  const KeyReqID: Key := CtxKey(0)

  /** The parts of an inbound request the pipeline looks at. */
  datatype Request = Request(httpMethod: string, url: string, ctx: Context)

  datatype Level = DebugLevel | InfoLevel

  /** What a handler does that can be observed: a log entry, or a panic, after
      which nothing else in that request runs. */
  datatype Event =
    | Log(level: Level, fields: map<string, string>, message: string)
    | Panic(reason: string)

  /** The identifiers the UUID generator would return, in order of request. */
  type Entropy = nat -> string

  type Handler = (Request, Entropy) -> seq<Event>

  type Middleware = Handler -> Handler

  /** The generator after one identifier has been drawn from it. */
  function Drawn(e: Entropy): Entropy
  {
    (n: nat) => e(n + 1)
  }

  /** An entry of the package logger (field "package" set once for the package),
      extended with the request's ID. */
  function Entry(level: Level, id: string, message: string): Event
  {
    Log(level, map["package" := "http", "request_id" := id], message)
  }

  const NilAssertion := "interface conversion: interface {} is nil, not string"

  /** The request ID in a request's context, if one of type string is there. */
  function RequestID(req: Request): Option<string>
  {
    match Lookup(req.ctx, KeyReqID)
    case Some(StringValue(id)) => Some(id)
    case _ => None
  }

  /** `setRequestID`: mint an ID, store it in a child context, log it, then
      run the next handler once with the extended request. */
  function SetRequestID(f: Handler): Handler
  {
    (req: Request, e: Entropy) =>
      var id := e(0);
      var ctx := WithValue(req.ctx, KeyReqID, StringValue(id));
      [Entry(DebugLevel, id, "setting request ID")] + f(req.(ctx := ctx), Drawn(e))
  }

  /** `logRequest`: read the ID (the type assertion panics when it is absent or
      not a string), log method and URL under it, then run the next handler on
      the same request. */
  function LogRequest(f: Handler): Handler
  {
    (req: Request, e: Entropy) =>
      match Lookup(req.ctx, KeyReqID)
      case None => [Panic(NilAssertion)]
      case Some(OtherValue(t)) => [Panic("interface conversion: interface {} is " + t + ", not string")]
      case Some(StringValue(reqid)) => [Entry(InfoLevel, reqid, req.httpMethod + " " + req.url)] + f(req, e)
  }

  /** The handler `chain` is meant to build: the first middleware outermost. */
  function Fold(mw: seq<Middleware>, f: Handler): Handler
    decreases |mw|
  {
    if mw == [] then f else mw[0](Fold(mw[1..], f))
  }

  /** `chain`: apply the middlewares from the last to the first. */
  method Chain(f: Handler, mw: seq<Middleware>) returns (h: Handler)
    ensures h == Fold(mw, f)
    ensures mw == [] ==> h == f
    ensures mw != [] ==> h == mw[0](Fold(mw[1..], f))
  {
    h := f;
    var i := |mw| - 1;
    while i >= 0
      invariant -1 <= i < |mw|
      invariant h == Fold(mw[i + 1..], f)
      decreases i + 1
    {
      assert mw[i..][1..] == mw[i + 1..];
      h := mw[i](h);
      i := i - 1;
    }
  }

  /** `r` is `req` as seen through a child context holding `id` under the
      private key: same method and URL, the ID readable, every other key as before,
      and as a flat map the old pairs with the ID added or replaced. */
  ghost predicate Extends(r: Request, req: Request, id: string)
  {
    && r.httpMethod == req.httpMethod
    && r.url == req.url
    && Lookup(r.ctx, KeyReqID) == Some(StringValue(id))
    && ToMap(r.ctx) == ToMap(req.ctx)[KeyReqID := StringValue(id)]
    && forall k :: k != KeyReqID ==> Lookup(r.ctx, k) == Lookup(req.ctx, k)
  }

  /** On `req` with generator `e`, `h` logs a debug entry with the fresh ID, an
      info entry with that ID, method and URL, then runs `next` exactly once,
      on `req` extended with that ID. */
  ghost predicate TaggedOn(h: Handler, next: Handler, req: Request, e: Entropy)
  {
    exists r: Request ::
      && Extends(r, req, e(0))
      && h(req, e) == [Entry(DebugLevel, e(0), "setting request ID"),
                       Entry(InfoLevel, e(0), req.httpMethod + " " + req.url)] + next(r, Drawn(e))
  }

  /** `h` is the route pipeline around `next`, on every request. */
  ghost predicate Tagged(h: Handler, next: Handler)
  {
    forall req: Request, e: Entropy :: TaggedOn(h, next, req, e)
  }

  /** The two routes of `ListenAndServe`, without the router and the listener. */
  method Routes(getRoot: Handler, postGitTrigger: Handler) returns (root: Handler, trigger: Handler)
    ensures root == Fold([SetRequestID, LogRequest], getRoot)
    ensures trigger == Fold([SetRequestID, LogRequest], postGitTrigger)
    ensures Tagged(root, getRoot)
    ensures Tagged(trigger, postGitTrigger)
  {
    root := Chain(getRoot, [SetRequestID, LogRequest]);
    trigger := Chain(postGitTrigger, [SetRequestID, LogRequest]);
    PipelineTags(getRoot);
    PipelineTags(postGitTrigger);
  }

  // Properties of the pipeline

  /** Chaining two lists equals chaining the first around the chain of the second. */
  lemma {:induction false} FoldAppend(a: seq<Middleware>, b: seq<Middleware>, f: Handler)
    ensures Fold(a + b, f) == Fold(a, Fold(b, f))
    decreases |a|
  {
    if a == [] {
      assert a + b == b;
    } else {
      assert (a + b)[1..] == a[1..] + b;
      FoldAppend(a[1..], b, f);
    }
  }

  /** A probe middleware: emit `ev`, then run the next handler. */
  function Probe(ev: Event): Middleware
  {
    (f: Handler) => (req: Request, e: Entropy) => [ev] + f(req, e)
  }

  function Probes(evs: seq<Event>): (mw: seq<Middleware>)
    ensures |mw| == |evs|
  {
    if evs == [] then [] else [Probe(evs[0])] + Probes(evs[1..])
  }

  /** Chained middlewares run in the order listed, each exactly once, and then
      the terminal handler. */
  lemma {:induction false} StagesRunInOrder(evs: seq<Event>, h: Handler, req: Request, e: Entropy)
    ensures Fold(Probes(evs), h)(req, e) == evs + h(req, e)
    decreases |evs|
  {
    if evs != [] {
      assert Probes(evs)[1..] == Probes(evs[1..]);
      StagesRunInOrder(evs[1..], h, req, e);
      assert evs == [evs[0]] + evs[1..];
    }
  }

  /** `setRequestID` logs the fresh ID first, then calls `f` once with a request
      whose context adds that ID and keeps every other entry. */
  lemma SetRequestIDExtends(f: Handler, req: Request, e: Entropy)
    ensures exists r: Request ::
      && Extends(r, req, e(0))
      && RequestID(r) == Some(e(0))
      && SetRequestID(f)(req, e) == [Entry(DebugLevel, e(0), "setting request ID")] + f(r, Drawn(e))
  {
    var r := req.(ctx := WithValue(req.ctx, KeyReqID, StringValue(e(0))));
    assert Extends(r, req, e(0));
  }

  /** With an ID present, `logRequest` logs method and URL under it and then
      calls `f` with the identical request and generator. */
  lemma LogRequestForwards(f: Handler, req: Request, e: Entropy, id: string)
    requires RequestID(req) == Some(id)
    ensures LogRequest(f)(req, e) == [Entry(InfoLevel, id, req.httpMethod + " " + req.url)] + f(req, e)
  {
  }

  /** Putting `logRequest` behind `setRequestID` inserts exactly one info entry
      with the minted ID, method and URL after the debug entry, and changes
      nothing else: the next handler gets the same request and generator. */
  lemma LogRequestInsertsEntry(h: Handler, req: Request, e: Entropy)
    ensures var w := Fold([SetRequestID], h)(req, e);
      && |w| >= 1
      && Fold([SetRequestID, LogRequest], h)(req, e)
         == w[..1] + [Entry(InfoLevel, e(0), req.httpMethod + " " + req.url)] + w[1..]
  {
    assert [SetRequestID, LogRequest][1..] == [LogRequest];
    assert [SetRequestID][1..] == [];
    assert [LogRequest][1..] == [];
    assert Fold([LogRequest], h) == LogRequest(Fold([], h));
    assert Fold([SetRequestID], h) == SetRequestID(Fold([], h));
    var r := req.(ctx := WithValue(req.ctx, KeyReqID, StringValue(e(0))));
    LogRequestForwards(h, r, Drawn(e), e(0));
  }

  /** `logRequest` panics, and never reaches `f`, exactly when no string ID is there. */
  lemma LogRequestPanics(f: Handler, req: Request, e: Entropy)
    ensures LogRequest(f)(req, e)[0].Panic? <==> RequestID(req) == None
    ensures RequestID(req) == None ==> |LogRequest(f)(req, e)| == 1
  {
    match Lookup(req.ctx, KeyReqID)
    case None =>
    case Some(OtherValue(t)) =>
    case Some(StringValue(id)) =>
      LogRequestForwards(f, req, e, id);
  }

  /** The route pipeline `chain(h, setRequestID, logRequest)` never panics on
      its own, and `h` sees the ID that was minted and logged. */
  lemma PipelineTags(h: Handler)
    ensures Tagged(Fold([SetRequestID, LogRequest], h), h)
  {
    var p := Fold([SetRequestID, LogRequest], h);
    assert [SetRequestID, LogRequest][1..] == [LogRequest];
    assert [LogRequest][1..] == [];
    assert Fold([LogRequest], h) == LogRequest(Fold([], h));
    assert p == SetRequestID(Fold([LogRequest], h));
    forall req: Request, e: Entropy
      ensures TaggedOn(p, h, req, e)
    {
      var r := req.(ctx := WithValue(req.ctx, KeyReqID, StringValue(e(0))));
      assert Extends(r, req, e(0));
      LogRequestForwards(h, r, Drawn(e), e(0));
      assert p(req, e) == [Entry(DebugLevel, e(0), "setting request ID")] + LogRequest(h)(r, Drawn(e));
    }
  }

  /** Listed the other way round, the pipeline panics on every request the
      server builds: its context cannot hold package http's key yet. */
  lemma MisorderedPipelinePanics(h: Handler, req: Request, e: Entropy)
    requires ForeignOnly(req.ctx)
    ensures Fold([LogRequest, SetRequestID], h)(req, e) == [Panic(NilAssertion)]
  {
    assert [LogRequest, SetRequestID][1..] == [SetRequestID];
    assert [SetRequestID][1..] == [];
    ForeignContextHasNoOwnKey(req.ctx, 0);
  }
}
