/**
 * The HTTP upstream handler of the consumer server: routes each request by path, serves
 * start / stop / statistics requests under `/consumer` against the shared registry, and
 * answers a mock endpoint with a running call count. Starting is fail-fast: the workers
 * created before a failure stay registered and running.
 */
module UpstreamHandler {

  import opened Common
  import opened JavaStrings
  import opened RequestParams
  import opened Response
  import opened Registry

  // Request paths.
  const ControlPath: string := "/consumer"
  const MockPath: string := "/ESP-Mock-0.0.1/PlaceOrderWS"

  /** The body sent for a path the handler does not serve. */
  const UnknownPathReply: string := "<Error/>"

  datatype HttpMethod = Get | Post | OtherMethod

  /**
   * The parts of an HTTP request the handler reads: method, URI, `Connection` header,
   * and the parameters decoded from the query string and from the body.
   */
  datatype HttpRequest = HttpRequest(httpMethod: HttpMethod, uri: string, connection: Option<string>,
                                     uriParams: Params, bodyParams: Params)

  datatype ReplyBody = Document(response: Response) | Text(text: string)

  /** What is written back: the body, and whether the connection stays open. */
  datatype Reply = Reply(keepAlive: bool, body: ReplyBody)

  /** The `Connection` header asks to keep the connection open, in any letter case. */
  predicate KeepAlive(connection: Option<string>)
  {
    connection.Some? && EqualsIgnoreCase("keep-alive", connection.value)
  }

  lemma KeepAliveIgnoresCase(header: string)
    ensures KeepAlive(Some(header)) <==> LowerCase(header) == "keep-alive"
    ensures KeepAlive(Some("Keep-Alive")) && KeepAlive(Some("keep-alive")) && !KeepAlive(None)
  {
    EqualsIgnoreCaseIsLowerCaseEquality("keep-alive", header);
    assert LowerCase("keep-alive") == "keep-alive";
  }

  /** The parameters a request carries: for POST, the body's parameters override the URI's. */
  function RequestParamsOf(req: HttpRequest): (params: Params)
    ensures req.httpMethod != Post ==> params == req.uriParams
    ensures req.httpMethod == Post ==>
              params.Keys == req.uriParams.Keys + req.bodyParams.Keys &&
              (forall k :: k in req.bodyParams ==> params[k] == req.bodyParams[k]) &&
              (forall k :: k in req.uriParams && k !in req.bodyParams ==> params[k] == req.uriParams[k])
  {
    if req.httpMethod == Post then req.uriParams + req.bodyParams else req.uriParams
  }

  datatype Route = ControlRoute | MockRoute | UnknownRoute

  /** Which part of the handler serves a URI: tested by prefix, the control path first. */
  function RouteOf(uri: string): (r: Route)
    ensures r == ControlRoute <==> StartsWith(uri, ControlPath)
    ensures r == MockRoute <==> !StartsWith(uri, ControlPath) && StartsWith(uri, MockPath)
    ensures r == UnknownRoute <==> !StartsWith(uri, ControlPath) && !StartsWith(uri, MockPath)
  {
    if StartsWith(uri, ControlPath) then ControlRoute
    else if StartsWith(uri, MockPath) then MockRoute
    else UnknownRoute
  }

  /** The mock endpoint's answer for call number `n`. */
  function MockReply(n: int): string
  {
    "<response>" + LongToString(n) + "</response>"
  }

  // ---------------------------------------------------------------------------------------
  // Creating one worker

  function NoClassMessage(kind: string): string
  {
    "No consumer class found for type '" + kind + "'"
  }

  function InstantiationMessage(kind: string): string
  {
    "Failed to instantiate consumer of type '" + kind + "'"
  }

  /**
   * One iteration of `startConsumer`'s creation: an unregistered type is refused, a class
   * that cannot be instantiated reports the type, a failing `initialize` its own message.
   * A created worker carries the requested type, the fresh identifier and the request's
   * parameters.
   */
  function SpawnHandler(available: map<string, string>, kind: string, params: Params,
                        freshId: string, creation: Creation): (r: Result<Worker, string>)
    ensures kind !in available ==> r == Failure(NoClassMessage(kind))
    ensures r.Success? <==> kind in available && creation == Created
    ensures r.Success? ==> r.value == Worker(freshId, kind, params)
    ensures kind in available && (creation.InstantiationFailed? || creation.IllegalAccess?) ==>
              r == Failure(InstantiationMessage(kind))
    ensures kind in available && creation.InitializeFailed? ==> r == Failure(creation.msg)
  {
    if kind !in available then Failure(NoClassMessage(kind))
    else match creation
      case Created => Success(Worker(freshId, kind, params))
      case InstantiationFailed(_) => Failure(InstantiationMessage(kind))
      case IllegalAccess(_) => Failure(InstantiationMessage(kind))
      case InitializeFailed(m) => Failure(m)
  }

  /** The creation attempt for every requested type, in request order. */
  function Spawns(available: map<string, string>, types: seq<string>, params: Params,
                  freshIds: seq<string>, creations: seq<Creation>): (rs: seq<Result<Worker, string>>)
    requires |types| <= |freshIds| && |types| <= |creations|
    ensures |rs| == |types|
    ensures forall k :: 0 <= k < |types| ==>
              rs[k] == SpawnHandler(available, types[k], params, freshIds[k], creations[k])
  {
    if types == [] then []
    else
      var n := |types| - 1;
      Spawns(available, types[..n], params, freshIds, creations) +
        [SpawnHandler(available, types[n], params, freshIds[n], creations[n])]
  }

  // ---------------------------------------------------------------------------------------
  // Shutdown records

  /** The record a shutdown request lists for one identifier. */
  function StopRecord(running: map<string, Worker>, id: string, outcome: Outcome): Entry
  {
    if id !in running then Stopped(id, ShutdownUnknownId)
    else if outcome.Done? then Stopped(id, ShutdownSucceeded)
    else Stopped(id, ShutdownFailed)
  }

  /**
   * One record per identifier, in request order: unknown, stopped, or failed to stop
   * (without a message).
   */
  function StopRecords(running: map<string, Worker>, ids: seq<string>, outcomes: seq<Outcome>): (es: seq<Entry>)
    requires |ids| <= |outcomes|
    ensures |es| == |ids|
    ensures forall i :: 0 <= i < |ids| ==> es[i].Stopped? && es[i].id == ids[i]
    ensures forall i :: 0 <= i < |ids| ==>
              (es[i].state == ShutdownUnknownId <==> ids[i] !in running) &&
              (es[i].state == ShutdownSucceeded <==> ids[i] in running && outcomes[i].Done?) &&
              (es[i].state == ShutdownFailed <==> ids[i] in running && outcomes[i].Raised?)
  {
    if ids == [] then []
    else
      var n := |ids| - 1;
      StopRecords(running, ids[..n], outcomes) + [StopRecord(running, ids[n], outcomes[n])]
  }

  /**
   * The handler's own test: stopping two identifiers that were never started reports each
   * as unknown, in order, whatever their shutdown would have done.
   */
  lemma StopUnstartedIds(running: map<string, Worker>, outcomes: seq<Outcome>)
    requires "consumer1" !in running && "consumer2" !in running && |outcomes| >= 2
    ensures StopRecords(running, ["consumer1", "consumer2"], outcomes) ==
              [Stopped("consumer1", ShutdownUnknownId), Stopped("consumer2", ShutdownUnknownId)]
  {
  }

  // ---------------------------------------------------------------------------------------
  // Registering worker types

  /** The entries of `m` whose keys are in `keys`. */
  function Restrict(m: map<string, string>, keys: set<string>): map<string, string>
  {
    map k | k in keys && k in m :: m[k]
  }

  /** One `putIfAbsent` of the constructor's registration loop. */
  lemma PutIfAbsentStep(types: map<string, string>, remaining: set<string>, t: string, before: map<string, string>)
    requires remaining <= types.Keys && t in remaining
    ensures var current := Restrict(types, types.Keys - remaining) + before;
            var next := Restrict(types, types.Keys - (remaining - {t})) + before;
            (t in current ==> next == current) &&
            (t !in current ==> next == current[t := types[t]])
  {
    assert types.Keys - (remaining - {t}) == (types.Keys - remaining) + {t};
  }

  // ---------------------------------------------------------------------------------------
  // The handler

  /**
   * Where `startConsumer` stands after creating `created`: each took the next identifier of
   * the supply, each has its record, went to the pool and is registered.
   */
  ghost predicate StartProgress(freshIds: seq<string>, before: map<string, Worker>, pool0: seq<Worker>,
                                created: seq<Worker>, entries: seq<Entry>,
                                running: map<string, Worker>, pool: seq<Worker>)
  {
    |created| <= |freshIds| &&
    (forall k :: 0 <= k < |created| ==> created[k].id == freshIds[k]) &&
    Launched(before, pool0, created, entries, running, pool)
  }

  /** Creating one more worker, under the next identifier of the supply, keeps the progress. */
  lemma StartProgressStep(freshIds: seq<string>, before: map<string, Worker>, pool0: seq<Worker>,
                          created: seq<Worker>, entries: seq<Entry>,
                          running: map<string, Worker>, pool: seq<Worker>, w: Worker)
    requires StartProgress(freshIds, before, pool0, created, entries, running, pool)
    requires |created| < |freshIds| && w.id == freshIds[|created|] && w.id !in running
    ensures StartProgress(freshIds, before, pool0, created + [w], entries + [Started(w.id, w.kind)],
                          running[w.id := w], pool + [w])
  {
    LaunchedStep(before, pool0, created, entries, running, pool, w);
    var created' := created + [w];
    forall k | 0 <= k < |created'|
      ensures created'[k].id == freshIds[k]
    {
      if k < |created| {
        assert created'[k] == created[k];
      }
    }
  }

  /**
   * Identifiers handed to the workers created so far are the first ones of the supply, so
   * the rest of the supply is still unregistered.
   */
  lemma StillFresh(before: map<string, Worker>, after: map<string, Worker>, created: seq<Worker>,
                   ids: seq<string>, n: nat)
    requires FreshIds(ids, n, before) && |created| <= n
    requires forall k :: 0 <= k < |created| ==> created[k].id == ids[k]
    requires RegistersAll(before, after, created)
    ensures forall k :: |created| <= k < n ==> ids[k] !in after
  {
  }

  class TSConsumerChannelUpstreamHandler {

    /** The registries this handler shares with every other instance. */
    const registry: ConsumerRegistry

    /** Calls to the mock endpoint so far, a Java `int`. */
    var mockCallCount: int

    ghost predicate Valid()
      reads this
    {
      IntMin <= mockCallCount <= IntMax
    }

    constructor Init(registry: ConsumerRegistry)
      ensures this.registry == registry && mockCallCount == 0
      ensures Valid()
    {
      this.registry := registry;
      mockCallCount := 0;
    }

    /**
     * The constructor: refuses a missing or empty map of worker types (the program raises
     * a runtime exception), and otherwise registers each type unless it is registered
     * already, so the first registration of a type wins across all handlers.
     */
    static method Create(registry: ConsumerRegistry, consumers: Option<map<string, string>>)
      returns (h: Option<TSConsumerChannelUpstreamHandler>)
      requires registry.Valid()
      modifies registry
      ensures registry.Valid()
      ensures h.None? <==> consumers.None? || consumers.value == map[]
      ensures h.None? ==> registry.available == old(registry.available)
      ensures h.Some? ==>
                fresh(h.value) && h.value.registry == registry && h.value.mockCallCount == 0 &&
                h.value.Valid() && registry.available == consumers.value + old(registry.available)
      ensures registry.running == old(registry.running) && registry.pool == old(registry.pool)
    {
      if consumers.None? || consumers.value == map[] {
        return None;
      }
      var types := consumers.value;
      var handler := new TSConsumerChannelUpstreamHandler.Init(registry);
      var remaining := types.Keys;
      while remaining != {}
        invariant remaining <= types.Keys
        invariant registry.available == Restrict(types, types.Keys - remaining) + old(registry.available)
        invariant registry.running == old(registry.running) && registry.pool == old(registry.pool)
        invariant handler.mockCallCount == 0
        decreases |remaining|
      {
        var t, rest := Take(remaining);
        PutIfAbsentStep(types, remaining, t, old(registry.available));
        if t !in registry.available {
          registry.available := registry.available[t := types[t]];
        }
        remaining := rest;
      }
      assert Restrict(types, types.Keys - remaining) == types;
      return Some(handler);
    }

    /**
     * One iteration of `startConsumer`: creates the worker for `types[i]` and, if that
     * worked, registers it, hands it to the pool and records it in the response.
     */
    method StartOne(types: seq<string>, params: Params, freshIds: seq<string>, creations: seq<Creation>,
                    i: nat, entries: seq<Entry>, ghost before: map<string, Worker>, ghost pool0: seq<Worker>,
                    ghost created: seq<Worker>)
      returns (attempt: Result<Worker, string>, entries': seq<Entry>, ghost created': seq<Worker>)
      requires i == |created| < |types| <= |creations| && FreshIds(freshIds, |types|, before)
      requires StartProgress(freshIds, before, pool0, created, entries, registry.running, registry.pool)
      requires registry.Valid()
      modifies registry
      ensures registry.Valid()
      ensures attempt == SpawnHandler(registry.available, types[i], params, freshIds[i], creations[i])
      ensures registry.available == old(registry.available)
      ensures attempt.Failure? ==>
                registry.running == old(registry.running) && registry.pool == old(registry.pool) &&
                created' == created && entries' == entries
      ensures attempt.Success? ==>
                created' == created + [attempt.value] &&
                StartProgress(freshIds, before, pool0, created', entries', registry.running, registry.pool)
    {
      StillFresh(before, registry.running, created, freshIds, |types|);
      attempt := SpawnHandler(registry.available, types[i], params, freshIds[i], creations[i]);
      entries' := entries;
      created' := created;
      if attempt.Success? {
        var w := attempt.value;
        StartProgressStep(freshIds, before, pool0, created, entries, registry.running, registry.pool, w);
        registry.Launch(w);
        entries' := entries + [Started(w.id, w.kind)];
        created' := created + [w];
      }
    }

    /**
     * `startConsumer`: creates, registers and hands over a worker per type, in request
     * order, stopping at the first failure with that failure's message. The workers created
     * before it stay registered and handed over; on success the response lists every one.
     */
    method StartConsumer(types: seq<string>, params: Params, freshIds: seq<string>, creations: seq<Creation>)
      returns (r: Result<Element, string>)
      requires |types| <= |creations|
      requires FreshIds(freshIds, |types|, registry.running)
      requires registry.Valid()
      modifies registry
      ensures registry.Valid()
      ensures registry.available == old(registry.available)
      ensures match RunBatch(Spawns(old(registry.available), types, params, freshIds, creations))
              case AllCreated(ws) =>
                r == Success(Element(StartTag, StartRecords(ws))) &&
                registry.pool == old(registry.pool) + ws && RegistersAll(old(registry.running), registry.running, ws)
              case FailedAt(_, ws, m) =>
                r == Failure(m) &&
                registry.pool == old(registry.pool) + ws && RegistersAll(old(registry.running), registry.running, ws)
    {
      ghost var attempts := Spawns(registry.available, types, params, freshIds, creations);
      var entries, failure, created := StartEach(types, params, freshIds, creations);
      if failure.Some? {
        RunBatchFailedAt(attempts, |created|, created, failure.value);
        r := Failure(failure.value);
      } else {
        RunBatchAllCreated(attempts, created);
        r := Success(Element(StartTag, entries));
      }
    }

    /**
     * The loop of `startConsumer`: one attempt per type, in order, until the first that
     * fails. `created` lists the workers registered on the way.
     */
    method StartEach(types: seq<string>, params: Params, freshIds: seq<string>, creations: seq<Creation>)
      returns (entries: seq<Entry>, failure: Option<string>, ghost created: seq<Worker>)
      requires |types| <= |creations|
      requires FreshIds(freshIds, |types|, registry.running)
      requires registry.Valid()
      modifies registry
      ensures registry.Valid()
      ensures registry.available == old(registry.available)
      ensures SucceededAs(Spawns(registry.available, types, params, freshIds, creations), created)
      ensures failure.None? ==> |created| == |types|
      ensures failure.Some? ==>
                |created| < |types| &&
                Spawns(registry.available, types, params, freshIds, creations)[|created|] == Failure(failure.value)
      ensures StartProgress(freshIds, old(registry.running), old(registry.pool), created, entries,
                            registry.running, registry.pool)
    {
      ghost var attempts := Spawns(registry.available, types, params, freshIds, creations);
      created := [];
      entries := [];
      var i := 0;
      while i < |types|
        invariant 0 <= i <= |types| && |created| == i
        invariant SucceededAs(attempts, created)
        invariant StartProgress(freshIds, old(registry.running), old(registry.pool), created, entries,
                                registry.running, registry.pool)
        invariant registry.available == old(registry.available)
        invariant registry.Valid()
      {
        var attempt;
        ghost var created0 := created;
        attempt, entries, created := StartOne(types, params, freshIds, creations, i, entries,
                                              old(registry.running), old(registry.pool), created);
        assert attempt == attempts[i];
        if attempt.Failure? {
          return entries, Some(attempt.error), created;
        }
        SucceededAsStep(attempts, created0, attempt.value);
        i := i + 1;
      }
      failure := None;
    }

    /**
     * `shutdownConsumer`: one record per identifier, in request order, stating whether the
     * worker was unknown, stopped, or failed to stop. `stopped` lists the workers whose
     * `shutdown()` is called. The registries are left as they are.
     */
    method ShutdownConsumer(ids: seq<string>, outcomes: seq<Outcome>) returns (e: Element, stopped: seq<Worker>)
      requires |ids| <= |outcomes|
      ensures e == Element(ShutdownTag, StopRecords(registry.running, ids, outcomes))
      ensures stopped == StoppedWorkers(registry.running, ids)
    {
      var entries: seq<Entry> := [];
      stopped := [];
      var i := 0;
      while i < |ids|
        invariant 0 <= i <= |ids|
        invariant entries == StopRecords(registry.running, ids[..i], outcomes)
        invariant stopped == StoppedWorkers(registry.running, ids[..i])
      {
        assert ids[..i + 1][..i] == ids[..i];
        var id := ids[i];
        if id in registry.running {
          stopped := stopped + [registry.running[id]];
          if outcomes[i].Done? {
            entries := entries + [Stopped(id, ShutdownSucceeded)];
          } else {
            entries := entries + [Stopped(id, ShutdownFailed)];
          }
        } else {
          entries := entries + [Stopped(id, ShutdownUnknownId)];
        }
        i := i + 1;
      }
      assert ids[..i] == ids;
      e := Element(ShutdownTag, entries);
    }

    /** The `start` branch of `messageReceived`'s control requests. */
    method ServeStart(params: Params, oracle: Oracle) returns (a: Answer)
      requires Supplies(oracle, OperandCount(params, StartKey), 0, registry.running)
      requires registry.Valid()
      modifies registry
      ensures registry.Valid()
      ensures registry.available == old(registry.available)
      ensures match ExtractValues(StartKey, params)
              case Failure(_) =>
                a == Refused(NoConsumerTypesFound, "No consumer types provided") &&
                registry.running == old(registry.running) && registry.pool == old(registry.pool)
              case Success(types) =>
                match RunBatch(Spawns(old(registry.available), types, params, oracle.freshIds, oracle.creations))
                case FailedAt(_, ws, m) =>
                  a == Refused(ConsumerStartFailed, m) &&
                  registry.pool == old(registry.pool) + ws && RegistersAll(old(registry.running), registry.running, ws)
                case AllCreated(ws) =>
                  a == Answered(Element(StartTag, StartRecords(ws))) &&
                  registry.pool == old(registry.pool) + ws && RegistersAll(old(registry.running), registry.running, ws)
    {
      var types := ExtractMultiParameterValues(StartKey, params);
      if types.Failure? {
        return Refused(NoConsumerTypesFound, "No consumer types provided");
      }
      var started := StartConsumer(types.value, params, oracle.freshIds, oracle.creations);
      match started {
        case Success(e) => a := Answered(e);
        case Failure(m) => a := Refused(ConsumerStartFailed, m);
      }
    }

    /** The `stop` branch of `messageReceived`'s control requests. */
    method ServeStop(params: Params, oracle: Oracle) returns (a: Answer)
      requires OperandCount(params, StopKey) <= |oracle.shutdowns|
      ensures match ExtractValues(StopKey, params)
              case Failure(_) => a == Refused(NoConsumerIdentifiersFound, "No consumer identifiers provided")
              case Success(ids) => a == Answered(Element(ShutdownTag, StopRecords(registry.running, ids, oracle.shutdowns)))
    {
      var ids := ExtractMultiParameterValues(StopKey, params);
      if ids.Failure? {
        return Refused(NoConsumerIdentifiersFound, "No consumer identifiers provided");
      }
      var stopped, _ := ShutdownConsumer(ids.value, oracle.shutdowns);
      a := Answered(stopped);
    }

    /** The `collectStats` branch of `messageReceived`'s control requests. */
    method ServeStats(params: Params) returns (a: Answer)
      ensures match ExtractValues(StatsKey, params)
              case Failure(_) => a == Refused(NoConsumerIdentifiersFound, "No consumer identifiers provided")
              case Success(ids) =>
                match Statistics(registry.running, ids)
                case Failure(m) => a == Refused(CollectingStatsFailed, m)
                case Success(es) => a == Answered(Element(StatsTag, es))
    {
      var ids := ExtractMultiParameterValues(StatsKey, params);
      if ids.Failure? {
        return Refused(NoConsumerIdentifiersFound, "No consumer identifiers provided");
      }
      var stats := registry.CollectHandlerStatistics(ids.value);
      match stats {
        case Success(e) => a := Answered(e);
        case Failure(m) => a := Refused(CollectingStatsFailed, m);
      }
    }

    /**
     * The `/consumer` branch of `messageReceived`: serves the operation `SelectOpCode`
     * picks and answers with exactly one element below the root: the operation's element,
     * or an `errors` element with the single error that stopped it. Only a start request
     * changes the registries.
     */
    method ControlRequest(params: Params, oracle: Oracle) returns (resp: Response)
      requires Supplies(oracle, OperandCount(params, StartKey), OperandCount(params, StopKey), registry.running)
      requires registry.Valid()
      modifies registry
      ensures registry.Valid()
      ensures resp.root == RootTag && |resp.children| == 1
      ensures registry.available == old(registry.available)
      ensures SelectOpCode(params) != StartConsumers ==>
                registry.running == old(registry.running) && registry.pool == old(registry.pool)
      ensures SelectOpCode(params) == NoOpCode ==>
                resp.children[0] == ErrorsElement(UnknownOpCode, "No valid op-code provided")
      ensures SelectOpCode(params) == StartConsumers ==>
                match ExtractValues(StartKey, params)
                case Failure(_) => resp.children[0] == ErrorsElement(NoConsumerTypesFound, "No consumer types provided")
                case Success(types) =>
                  match RunBatch(Spawns(old(registry.available), types, params, oracle.freshIds, oracle.creations))
                  case FailedAt(_, ws, m) =>
                    resp.children[0] == ErrorsElement(ConsumerStartFailed, m) &&
                    RegistersAll(old(registry.running), registry.running, ws)
                  case AllCreated(ws) =>
                    resp.children[0] == Element(StartTag, StartRecords(ws)) &&
                    RegistersAll(old(registry.running), registry.running, ws)
      ensures SelectOpCode(params) == StopConsumers ==>
                match ExtractValues(StopKey, params)
                case Failure(_) => resp.children[0] == ErrorsElement(NoConsumerIdentifiersFound, "No consumer identifiers provided")
                case Success(ids) => resp.children[0] == Element(ShutdownTag, StopRecords(registry.running, ids, oracle.shutdowns))
      ensures SelectOpCode(params) == CollectStats ==>
                match ExtractValues(StatsKey, params)
                case Failure(_) => resp.children[0] == ErrorsElement(NoConsumerIdentifiersFound, "No consumer identifiers provided")
                case Success(ids) =>
                  match Statistics(registry.running, ids)
                  case Failure(m) => resp.children[0] == ErrorsElement(CollectingStatsFailed, m)
                  case Success(es) => resp.children[0] == Element(StatsTag, es)
    {
      var a: Answer;
      if StartKey in params {
        a := ServeStart(params, oracle);
      } else if StopKey in params {
        a := ServeStop(params, oracle);
      } else if StatsKey in params {
        a := ServeStats(params);
      } else {
        a := Refused(UnknownOpCode, "No valid op-code provided");
      }
      resp := Respond(a);
    }

    /**
     * `messageReceived`: answers `/consumer...` with the control response, counts and
     * answers calls to the mock endpoint, and answers any other path with `<Error/>`. The
     * connection is kept open exactly when the request asks for it.
     */
    method MessageReceived(req: HttpRequest, oracle: Oracle) returns (reply: Reply)
      requires Valid()
      requires Supplies(oracle, OperandCount(RequestParamsOf(req), StartKey),
                        OperandCount(RequestParamsOf(req), StopKey), registry.running)
      requires registry.Valid()
      modifies this, registry
      ensures registry.Valid()
      ensures Valid()
      ensures reply.keepAlive == KeepAlive(req.connection)
      ensures RouteOf(req.uri) != ControlRoute ==>
                registry.available == old(registry.available) &&
                registry.running == old(registry.running) && registry.pool == old(registry.pool)
      ensures RouteOf(req.uri) != MockRoute ==> mockCallCount == old(mockCallCount)
      ensures RouteOf(req.uri) == ControlRoute ==>
                reply.body.Document? && reply.body.response.root == RootTag &&
                |reply.body.response.children| == 1
      ensures RouteOf(req.uri) == ControlRoute && SelectOpCode(RequestParamsOf(req)) == NoOpCode ==>
                reply.body.response.children[0] == ErrorsElement(UnknownOpCode, "No valid op-code provided")
      ensures RouteOf(req.uri) == MockRoute ==>
                mockCallCount == IntIncrement(old(mockCallCount)) && reply.body == Text(MockReply(mockCallCount))
      ensures RouteOf(req.uri) == UnknownRoute ==> reply.body == Text(UnknownPathReply)
    {
      var keepAlive := req.connection.Some? && EqualsIgnoreCase("keep-alive", req.connection.value);
      var params := req.uriParams;
      if req.httpMethod == Post {
        params := params + req.bodyParams;
      }
      if StartsWith(req.uri, ControlPath) {
        var resp := ControlRequest(params, oracle);
        reply := Reply(keepAlive, Document(resp));
      } else if StartsWith(req.uri, MockPath) {
        mockCallCount := IntIncrement(mockCallCount);
        reply := Reply(keepAlive, Text(MockReply(mockCallCount)));
      } else {
        reply := Reply(keepAlive, Text(UnknownPathReply));
      }
    }
  }
}
