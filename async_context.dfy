/**
 * The context request handler for asynchronous input consumers: reads the worker types it
 * may start from its configuration, then serves start / stop / statistics requests
 * against the shared registry. Starting is all-or-nothing: a batch in which one creation
 * fails starts nothing, and the workers already created are shut down again.
 */
module AsyncContext {

  import opened Common
  import opened JavaStrings
  import opened RequestParams
  import opened Response
  import opened Registry

  /** Configuration keys `consumer.async.<type>` name the class implementing `<type>`. */
  const ConsumerTypePrefix: string := "consumer.async."

  /** The configuration key declaring worker type `t`. */
  function TypeKey(t: string): string
  {
    ConsumerTypePrefix + t
  }

  /** The worker type a `consumer.async.` key declares. */
  function TypeOfKey(key: string): (t: string)
    requires StartsWith(key, ConsumerTypePrefix)
    ensures TypeKey(t) == key
  {
    key[|ConsumerTypePrefix|..]
  }

  /** Prefixing a type and taking the suffix back gives the type. */
  lemma TypeKeyRoundTrip(t: string)
    ensures StartsWith(TypeKey(t), ConsumerTypePrefix) && TypeOfKey(TypeKey(t)) == t
  {
    assert TypeKey(t)[..|ConsumerTypePrefix|] == ConsumerTypePrefix;
  }

  /** Whether the class a type key names can be loaded. */
  predicate Resolvable(className: Option<string>, loadable: set<string>)
  {
    className.Some? && className.value in loadable
  }

  /** Each non-null entry of the configuration among `keys` with a non-empty key, as a one-value list. */
  function OptionsOf(cfg: map<string, Option<string>>, keys: set<string>): Params
  {
    map k | k in keys && k in cfg && k != "" && cfg[k].Some? :: [cfg[k]]
  }

  /** The configuration as the handler keeps it. */
  function StaticOptions(cfg: map<string, Option<string>>): Params
  {
    OptionsOf(cfg, cfg.Keys)
  }

  /** Every type key among `keys` names a loadable class and is registered with it. */
  ghost predicate TypesRegistered(cfg: map<string, Option<string>>, keys: set<string>,
                                  available: map<string, string>, loadable: set<string>)
  {
    forall k :: k in keys && k in cfg && StartsWith(k, ConsumerTypePrefix) ==>
      Resolvable(cfg[k], loadable) &&
      TypeOfKey(k) in available && Some(available[TypeOfKey(k)]) == cfg[k]
  }

  /** Each available type is either one that was there before, or one the configuration declares. */
  ghost predicate AvailableFrom(before: map<string, string>, after: map<string, string>,
                                cfg: map<string, Option<string>>)
  {
    forall t :: t in after ==>
      (t in before && after[t] == before[t]) ||
      (TypeKey(t) in cfg && cfg[TypeKey(t)] == Some(after[t]))
  }

  /** Types whose key the configuration does not mention keep their registration. */
  ghost predicate KeepsUndeclared(before: map<string, string>, after: map<string, string>,
                                  cfg: map<string, Option<string>>)
  {
    forall t :: t in before && TypeKey(t) !in cfg ==> t in after && after[t] == before[t]
  }

  /** The worker types the configuration declares, each with the class name it gives. */
  function DeclaredTypes(cfg: map<string, Option<string>>): map<string, string>
  {
    map k | k in cfg && StartsWith(k, ConsumerTypePrefix) && cfg[k].Some? :: TypeOfKey(k) := cfg[k].value
  }

  /**
   * A table that registers every declared type, adds nothing else and keeps every type the
   * configuration does not mention is the earlier table overwritten with the declared types.
   */
  lemma RegisteredTable(cfg: map<string, Option<string>>, loadable: set<string>,
                        before: map<string, string>, after: map<string, string>)
    requires TypesRegistered(cfg, cfg.Keys, after, loadable)
    requires AvailableFrom(before, after, cfg) && KeepsUndeclared(before, after, cfg)
    ensures after == before + DeclaredTypes(cfg)
  {
    var declared := DeclaredTypes(cfg);
    forall t | t in declared
      ensures t in after && after[t] == declared[t]
    {
      var k :| k in cfg && StartsWith(k, ConsumerTypePrefix) && cfg[k].Some? && TypeOfKey(k) == t;
    }
    forall t | t in after || t in before
      ensures t in after <==> t in before + declared
      ensures t in after && t !in declared ==> after[t] == before[t]
    {
      TypeKeyRoundTrip(t);
      DeclaredKey(cfg, t);
    }
  }

  /** A type whose key holds a class name is declared with that name. */
  lemma DeclaredKey(cfg: map<string, Option<string>>, t: string)
    ensures TypeKey(t) in cfg && cfg[TypeKey(t)].Some? ==>
              t in DeclaredTypes(cfg) && DeclaredTypes(cfg)[t] == cfg[TypeKey(t)].value
  {
    TypeKeyRoundTrip(t);
  }

  /** Each option is either one that was there before, or a configuration entry. */
  ghost predicate OptionsFrom(before: Params, after: Params, cfg: map<string, Option<string>>)
  {
    forall k :: k in after ==>
      (k in before && after[k] == before[k]) ||
      (k in cfg && k != "" && cfg[k].Some? && after[k] == [cfg[k]])
  }

  /** Where `initialize` stands after reading the entries `done`. */
  ghost predicate InitProgress(cfg: map<string, Option<string>>, loadable: set<string>, done: set<string>,
                               before: map<string, string>, available: map<string, string>,
                               options0: Params, options: Params)
  {
    TypesRegistered(cfg, done, available, loadable) &&
    AvailableFrom(before, available, cfg) && KeepsUndeclared(before, available, cfg) &&
    options == options0 + OptionsOf(cfg, done)
  }

  /** Having read every entry, `initialize` has registered every type and copied every option. */
  lemma InitDone(cfg: map<string, Option<string>>, loadable: set<string>,
                 before: map<string, string>, available: map<string, string>, options0: Params, options: Params)
    requires InitProgress(cfg, loadable, cfg.Keys, before, available, options0, options)
    ensures forall k :: k in cfg && StartsWith(k, ConsumerTypePrefix) ==> Resolvable(cfg[k], loadable)
    ensures options == options0 + StaticOptions(cfg)
    ensures OptionsFrom(options0, options, cfg)
  {
    OptionsOfFrom(options0, cfg, cfg.Keys);
  }

  lemma RegisterTypeStep(cfg: map<string, Option<string>>, done: set<string>, key: string,
                         before: map<string, string>, available: map<string, string>, loadable: set<string>)
    requires key in cfg && StartsWith(key, ConsumerTypePrefix) && Resolvable(cfg[key], loadable)
    requires TypesRegistered(cfg, done, available, loadable) && AvailableFrom(before, available, cfg)
    requires KeepsUndeclared(before, available, cfg)
    ensures TypesRegistered(cfg, done + {key}, available[TypeOfKey(key) := cfg[key].value], loadable)
    ensures AvailableFrom(before, available[TypeOfKey(key) := cfg[key].value], cfg)
    ensures KeepsUndeclared(before, available[TypeOfKey(key) := cfg[key].value], cfg)
  {
    var after := available[TypeOfKey(key) := cfg[key].value];
    forall k | k in done + {key} && k in cfg && StartsWith(k, ConsumerTypePrefix)
      ensures TypeOfKey(k) in after && Some(after[TypeOfKey(k)]) == cfg[k]
    {
      if k != key {
        assert TypeKey(TypeOfKey(k)) != TypeKey(TypeOfKey(key));
      }
    }
  }

  lemma SkipKeyStep(cfg: map<string, Option<string>>, done: set<string>, key: string,
                    available: map<string, string>, loadable: set<string>)
    requires !StartsWith(key, ConsumerTypePrefix)
    requires TypesRegistered(cfg, done, available, loadable)
    ensures TypesRegistered(cfg, done + {key}, available, loadable)
  {
  }

  lemma OptionsStep(before: Params, cfg: map<string, Option<string>>, done: set<string>, key: string)
    requires key in cfg
    ensures key != "" && cfg[key].Some? ==>
              before + OptionsOf(cfg, done + {key}) == (before + OptionsOf(cfg, done))[key := [cfg[key]]]
    ensures !(key != "" && cfg[key].Some?) ==>
              before + OptionsOf(cfg, done + {key}) == before + OptionsOf(cfg, done)
  {
  }

  lemma OptionsOfFrom(before: Params, cfg: map<string, Option<string>>, keys: set<string>)
    ensures OptionsFrom(before, before + OptionsOf(cfg, keys), cfg)
  {
  }

  // ---------------------------------------------------------------------------------------
  // Creating one worker

  function MissingTypeMessage(): string
  {
    "Missing required consumer type"
  }

  function UnavailableTypeMessage(kind: string): string
  {
    "Consumer type '" + kind + "' does not reference an available consumer class"
  }

  /**
   * `instantiateAsyncInputConsumer`: an empty or unregistered type is refused before
   * anything is created; otherwise the outcome of creating and initialising the class
   * decides. A created worker carries the requested type, the fresh identifier and the
   * options it was given.
   */
  function InstantiateAsyncInputConsumer(available: map<string, string>, kind: string, options: Params,
                                         freshId: string, creation: Creation): (r: Result<Worker, string>)
    ensures kind == "" ==> r == Failure(MissingTypeMessage())
    ensures kind != "" && kind !in available ==> r == Failure(UnavailableTypeMessage(kind))
    ensures r.Success? <==> kind != "" && kind in available && creation == Created
    ensures r.Success? ==> r.value == Worker(freshId, kind, options)
    ensures creation.InitializeFailed? && kind != "" && kind in available ==> r == Failure(creation.msg)
  {
    if kind == "" then Failure(MissingTypeMessage())
    else if kind !in available then Failure(UnavailableTypeMessage(kind))
    else match creation
      case Created => Success(Worker(freshId, kind, options))
      case InstantiationFailed(m) =>
        Failure("Failed to instantiate consumer class 'class " + available[kind] + "'. Error: " + m)
      case IllegalAccess(m) =>
        Failure("Failed to access consumer class 'class " + available[kind] + "'. Error: " + m)
      case InitializeFailed(m) => Failure(m)
  }

  /** The creation attempt for every requested type, in request order. */
  function Attempts(available: map<string, string>, types: seq<string>, options: Params,
                    freshIds: seq<string>, creations: seq<Creation>): (rs: seq<Result<Worker, string>>)
    requires |types| <= |freshIds| && |types| <= |creations|
    ensures |rs| == |types|
    ensures forall k :: 0 <= k < |types| ==>
              rs[k] == InstantiateAsyncInputConsumer(available, types[k], options, freshIds[k], creations[k])
  {
    if types == [] then []
    else
      var n := |types| - 1;
      Attempts(available, types[..n], options, freshIds, creations) +
        [InstantiateAsyncInputConsumer(available, types[n], options, freshIds[n], creations[n])]
  }

  /** The message a start request fails with, if it fails. */
  function StartError(b: Batch, types: seq<string>): Option<string>
    requires b.FailedAt? ==> b.index < |types|
  {
    match b
    case FailedAt(i, _, m) => Some("Failed to instantiate consumer for type '" + types[i] + "'. Error: " + m)
    case AllCreated(ws) => if ws == [] then Some("No consumers created") else None
  }

  /** Every attempt of a batch that created all its workers gave them the fresh identifiers. */
  lemma AllCreatedUseFreshIds(available: map<string, string>, types: seq<string>, options: Params,
                              freshIds: seq<string>, creations: seq<Creation>)
    requires |types| <= |freshIds| && |types| <= |creations|
    ensures var b := RunBatch(Attempts(available, types, options, freshIds, creations));
            b.AllCreated? ==>
              forall k :: 0 <= k < |types| ==>
                b.workers[k] == Worker(freshIds[k], types[k], options) && types[k] in available
  {
  }

  /** Fresh identifiers make a created batch distinct and unregistered. */
  lemma AllCreatedDistinctFresh(available: map<string, string>, types: seq<string>, options: Params,
                                freshIds: seq<string>, creations: seq<Creation>, running: map<string, Worker>)
    requires |types| <= |creations| && FreshIds(freshIds, |types|, running)
    ensures var b := RunBatch(Attempts(available, types, options, freshIds, creations));
            b.AllCreated? ==> DistinctFresh(b.workers, running)
  {
    AllCreatedUseFreshIds(available, types, options, freshIds, creations);
  }

  // ---------------------------------------------------------------------------------------
  // Shutdown records

  /** The record a shutdown request lists for one identifier. */
  function StopRecord(running: map<string, Worker>, id: string, outcome: Outcome): Entry
  {
    if id !in running then StoppedWithMessage(id, ShutdownUnknownId, "")
    else match outcome
      case Done => StoppedWithMessage(id, ShutdownSucceeded, "")
      case Raised(m) => StoppedWithMessage(id, ShutdownFailed, m)
  }

  /**
   * One record per identifier, in request order: unknown identifiers are reported as such,
   * known ones as stopped or, with the exception's message, as failed.
   */
  function StopRecords(running: map<string, Worker>, ids: seq<string>, outcomes: seq<Outcome>): (es: seq<Entry>)
    requires |ids| <= |outcomes|
    ensures |es| == |ids|
    ensures forall i :: 0 <= i < |ids| ==> es[i].StoppedWithMessage? && es[i].id == ids[i]
    ensures forall i :: 0 <= i < |ids| ==>
              (es[i].state == ShutdownUnknownId <==> ids[i] !in running) &&
              (es[i].state == ShutdownSucceeded <==> ids[i] in running && outcomes[i].Done?) &&
              (es[i].state == ShutdownFailed <==> ids[i] in running && outcomes[i].Raised?)
    ensures forall i :: 0 <= i < |ids| ==>
              es[i].msg == (if ids[i] in running && outcomes[i].Raised? then outcomes[i].msg else "")
  {
    if ids == [] then []
    else
      var n := |ids| - 1;
      StopRecords(running, ids[..n], outcomes) + [StopRecord(running, ids[n], outcomes[n])]
  }

  // ---------------------------------------------------------------------------------------
  // The handler

  /**
   * The loop of `initialize`, over the configuration entries in the map's (unspecified)
   * order: `options` and `available` start as `options0` and `available0` and receive each
   * entry read, up to the first type key whose class cannot be loaded.
   */
  method ReadConfiguration(cfg: map<string, Option<string>>, loadable: set<string>,
                           available0: map<string, string>, options0: Params)
    returns (ok: bool, available: map<string, string>, options: Params)
    ensures ok <==> forall k :: k in cfg && StartsWith(k, ConsumerTypePrefix) ==> Resolvable(cfg[k], loadable)
    ensures ok ==> options == options0 + StaticOptions(cfg)
    ensures ok ==> TypesRegistered(cfg, cfg.Keys, available, loadable)
    ensures ok ==> available == available0 + DeclaredTypes(cfg)
    ensures OptionsFrom(options0, options, cfg)
    ensures AvailableFrom(available0, available, cfg) && KeepsUndeclared(available0, available, cfg)
  {
    available, options := available0, options0;
    var remaining := cfg.Keys;
    while remaining != {}
      invariant remaining <= cfg.Keys
      invariant InitProgress(cfg, loadable, cfg.Keys - remaining, available0, available, options0, options)
      decreases |remaining|
    {
      var key, rest := Take(remaining);
      var accepted;
      accepted, available, options := ReadEntry(cfg, loadable, key, remaining, available0, available, options0, options);
      if !accepted {
        return false, available, options;
      }
      remaining := rest;
    }
    assert cfg.Keys - remaining == cfg.Keys;
    InitDone(cfg, loadable, available0, available, options0, options);
    RegisteredTable(cfg, loadable, available0, available);
    return true, available, options;
  }

  /**
   * One iteration of `initialize`: copies the entry for `key` into the options and, for a
   * type key, registers the type, or refuses when its class cannot be loaded.
   */
  method ReadEntry(cfg: map<string, Option<string>>, loadable: set<string>, key: string, ghost remaining: set<string>,
                   ghost available0: map<string, string>, available: map<string, string>,
                   ghost options0: Params, options: Params)
    returns (accepted: bool, available': map<string, string>, options': Params)
    requires remaining <= cfg.Keys && key in remaining
    requires InitProgress(cfg, loadable, cfg.Keys - remaining, available0, available, options0, options)
    ensures accepted <==> !StartsWith(key, ConsumerTypePrefix) || Resolvable(cfg[key], loadable)
    ensures accepted ==>
              InitProgress(cfg, loadable, cfg.Keys - (remaining - {key}), available0, available', options0, options')
    ensures !accepted ==>
              OptionsFrom(options0, options', cfg) && AvailableFrom(available0, available', cfg) &&
              KeepsUndeclared(available0, available', cfg)
    ensures available' == if accepted && StartsWith(key, ConsumerTypePrefix)
                          then available[TypeOfKey(key) := cfg[key].value] else available
    ensures options' == if cfg[key].Some? && key != "" then options[key := [cfg[key]]] else options
  {
    ghost var done := cfg.Keys - remaining;
    assert cfg.Keys - (remaining - {key}) == done + {key};
    var value := cfg[key];
    OptionsStep(options0, cfg, done, key);
    options' := options;
    available' := available;
    if value.Some? && key != "" {
      options' := options[key := [value]];
    }
    if StartsWith(key, ConsumerTypePrefix) {
      if !(value.Some? && value.value in loadable) {
        OptionsOfFrom(options0, cfg, done + {key});
        return false, available', options';
      }
      RegisterTypeStep(cfg, done, key, available0, available, loadable);
      available' := available[TypeOfKey(key) := value.value];
    } else {
      SkipKeyStep(cfg, done, key, available, loadable);
    }
    accepted := true;
  }

  class AsyncConsumerContextHandler {

    /** The registries this handler shares with every other instance. */
    const registry: ConsumerRegistry

    /** The handler's configuration, one-value lists handed to every worker it starts. */
    var configurationOptions: Params

    constructor (registry: ConsumerRegistry)
      ensures this.registry == registry
      ensures configurationOptions == map[]
    {
      this.registry := registry;
      configurationOptions := map[];
    }

    /**
     * `initialize`: copies the configuration into `configurationOptions` and registers every
     * `consumer.async.<type>` entry as an available type. It fails (the program raises a
     * runtime exception) exactly when some type key names a class that cannot be loaded;
     * `loadable` is the set of class names that can. Entries it touches before failing stay.
     */
    method Initialize(cfg: map<string, Option<string>>, loadable: set<string>) returns (ok: bool)
      requires registry.Valid()
      modifies this, registry
      ensures registry.Valid()
      ensures ok <==> forall k :: k in cfg && StartsWith(k, ConsumerTypePrefix) ==> Resolvable(cfg[k], loadable)
      ensures ok ==> configurationOptions == old(configurationOptions) + StaticOptions(cfg)
      ensures ok ==> TypesRegistered(cfg, cfg.Keys, registry.available, loadable)
      ensures ok ==> registry.available == old(registry.available) + DeclaredTypes(cfg)
      ensures OptionsFrom(old(configurationOptions), configurationOptions, cfg)
      ensures AvailableFrom(old(registry.available), registry.available, cfg)
      ensures KeepsUndeclared(old(registry.available), registry.available, cfg)
      ensures registry.running == old(registry.running) && registry.pool == old(registry.pool)
    {
      var available, options;
      ok, available, options := ReadConfiguration(cfg, loadable, registry.available, configurationOptions);
      registry.available := available;
      configurationOptions := options;
    }

    /**
     * The creation loop of `startConsumer`: tries the types in request order and stops at
     * the first failure.
     */
    method CreateConsumers(types: seq<string>, options: Params, freshIds: seq<string>, creations: seq<Creation>)
      returns (b: Batch)
      requires |types| <= |freshIds| && |types| <= |creations|
      ensures b == RunBatch(Attempts(registry.available, types, options, freshIds, creations))
    {
      ghost var attempts := Attempts(registry.available, types, options, freshIds, creations);
      var created: seq<Worker> := [];
      var i := 0;
      while i < |types|
        invariant 0 <= i <= |types|
        invariant |created| == i
        invariant forall k :: 0 <= k < i ==> attempts[k] == Success(created[k])
      {
        var attempt := InstantiateAsyncInputConsumer(registry.available, types[i], options, freshIds[i], creations[i]);
        if attempt.Failure? {
          RunBatchFailedAt(attempts, i, created, attempt.error);
          return FailedAt(i, created, attempt.error);
        }
        created := created + [attempt.value];
        i := i + 1;
      }
      RunBatchAllCreated(attempts, created);
      return AllCreated(created);
    }

    /**
     * `startConsumer`: creates a worker for every type, with the handler's configuration
     * overridden by the request's parameters. If a creation fails, nothing is registered or
     * handed to the pool; the workers created so far are returned in `rolledBack`, each of
     * which was shut down again, in the set's order. Otherwise every worker is handed to
     * the pool and registered under its identifier, and the response lists each one, all
     * in the same (hash-set) order. An empty batch is an error.
     */
    method StartConsumer(types: seq<string>, params: Params, freshIds: seq<string>, creations: seq<Creation>)
      returns (r: Result<Element, string>, rolledBack: seq<Worker>)
      requires |types| <= |creations|
      requires FreshIds(freshIds, |types|, registry.running)
      requires registry.Valid()
      modifies registry
      ensures registry.Valid()
      ensures registry.available == old(registry.available)
      ensures var b := RunBatch(Attempts(old(registry.available), types, configurationOptions + params, freshIds, creations));
              && (r.Failure? <==> StartError(b, types).Some?)
              && (r.Failure? ==> r.error == StartError(b, types).value &&
                                 registry.running == old(registry.running) && registry.pool == old(registry.pool))
              && (b.AllCreated? ==> rolledBack == [])
              && (b.FailedAt? ==> exists order :: IsOrdering(order, |b.created|) && rolledBack == Reorder(b.created, order))
              && (r.Success? ==>
                    exists order :: IsOrdering(order, |b.workers|) &&
                      r.value == Element(StartTag, StartRecords(Reorder(b.workers, order))) &&
                      registry.pool == old(registry.pool) + Reorder(b.workers, order) &&
                      RegistersAll(old(registry.running), registry.running, Reorder(b.workers, order)))
    {
      var options := configurationOptions + params;
      var b := CreateConsumers(types, options, freshIds, creations);
      match b {
        case FailedAt(i, created, msg) =>
          // every instance created so far is shut down again, in the set's order
          var order := SomeOrder(|created|);
          rolledBack := Reorder(created, order);
          assert IsOrdering(order, |created|) && rolledBack == Reorder(created, order);
          r := Failure("Failed to instantiate consumer for type '" + types[i] + "'. Error: " + msg);
        case AllCreated(ws) =>
          rolledBack := [];
          if ws == [] {
            r := Failure("No consumers created");
            return;
          }
          AllCreatedDistinctFresh(registry.available, types, options, freshIds, creations, registry.running);
          var entries, order := registry.LaunchInSomeOrder(ws);
          r := Success(Element(StartTag, entries));
          assert IsOrdering(order, |ws|) &&
                 r.value == Element(StartTag, StartRecords(Reorder(ws, order))) &&
                 registry.pool == old(registry.pool) + Reorder(ws, order) &&
                 RegistersAll(old(registry.running), registry.running, Reorder(ws, order));
      }
    }

    /**
     * `shutdownConsumer`: one record per identifier, in request order, stating whether the
     * worker was unknown, stopped, or failed to stop (with the exception's message).
     * `stopped` lists the workers whose `shutdown()` is called. The registries are left as
     * they are: a stopped worker stays registered.
     */
    method ShutdownConsumer(ids: seq<string>, outcomes: seq<Outcome>) returns (e: Element, stopped: seq<Worker>)
      requires |ids| <= |outcomes|
      ensures e == Element(ShutdownTag, StopRecords(registry.running, ids, outcomes))
      ensures stopped == StoppedWorkers(registry.running, ids)
    {
      var entries: seq<Entry> := [];
      stopped := [];
      var i := 0;
      while i < |ids|
        invariant 0 <= i <= |ids|
        invariant entries == StopRecords(registry.running, ids[..i], outcomes)
        invariant stopped == StoppedWorkers(registry.running, ids[..i])
      {
        assert ids[..i + 1][..i] == ids[..i];
        var id := ids[i];
        if id in registry.running {
          stopped := stopped + [registry.running[id]];
          match outcomes[i] {
            case Done => entries := entries + [StoppedWithMessage(id, ShutdownSucceeded, "")];
            case Raised(m) => entries := entries + [StoppedWithMessage(id, ShutdownFailed, m)];
          }
        } else {
          entries := entries + [StoppedWithMessage(id, ShutdownUnknownId, "")];
        }
        i := i + 1;
      }
      assert ids[..i] == ids;
      e := Element(ShutdownTag, entries);
    }

    /** The `start` branch of `processRequest`. */
    method ServeStart(params: Params, oracle: Oracle) returns (a: Answer)
      requires Supplies(oracle, OperandCount(params, StartKey), 0, registry.running)
      requires registry.Valid()
      modifies registry
      ensures registry.Valid()
      ensures registry.available == old(registry.available)
      ensures match ExtractValues(StartKey, params)
              case Failure(_) =>
                a == Refused(NoConsumerTypesFound, "No consumer types provided") &&
                registry.running == old(registry.running) && registry.pool == old(registry.pool)
              case Success(types) =>
                var b := RunBatch(Attempts(old(registry.available), types, configurationOptions + params,
                                           oracle.freshIds, oracle.creations));
                match StartError(b, types)
                case Some(m) =>
                  a == Refused(ConsumerStartFailed, m) &&
                  registry.running == old(registry.running) && registry.pool == old(registry.pool)
                case None =>
                  exists order :: IsOrdering(order, |b.workers|) &&
                    a == Answered(Element(StartTag, StartRecords(Reorder(b.workers, order)))) &&
                    registry.pool == old(registry.pool) + Reorder(b.workers, order) &&
                    RegistersAll(old(registry.running), registry.running, Reorder(b.workers, order))
    {
      var types := ExtractMultiParameterValues(StartKey, params);
      if types.Failure? {
        return Refused(NoConsumerTypesFound, "No consumer types provided");
      }
      var started, _ := StartConsumer(types.value, params, oracle.freshIds, oracle.creations);
      match started {
        case Success(e) => a := Answered(e);
        case Failure(m) => a := Refused(ConsumerStartFailed, m);
      }
    }

    /** The `stop` branch of `processRequest`. */
    method ServeStop(params: Params, oracle: Oracle) returns (a: Answer)
      requires OperandCount(params, StopKey) <= |oracle.shutdowns|
      ensures match ExtractValues(StopKey, params)
              case Failure(_) => a == Refused(NoConsumerIdentifiersFound, "No consumer identifiers provided")
              case Success(ids) => a == Answered(Element(ShutdownTag, StopRecords(registry.running, ids, oracle.shutdowns)))
    {
      var ids := ExtractMultiParameterValues(StopKey, params);
      if ids.Failure? {
        return Refused(NoConsumerIdentifiersFound, "No consumer identifiers provided");
      }
      var stopped, _ := ShutdownConsumer(ids.value, oracle.shutdowns);
      a := Answered(stopped);
    }

    /** The `collectStats` branch of `processRequest`. */
    method ServeStats(params: Params) returns (a: Answer)
      ensures match ExtractValues(StatsKey, params)
              case Failure(_) => a == Refused(NoConsumerIdentifiersFound, "No consumer identifiers provided")
              case Success(ids) =>
                match Statistics(registry.running, ids)
                case Failure(m) => a == Refused(CollectingStatsFailed, m)
                case Success(es) => a == Answered(Element(StatsTag, es))
    {
      var ids := ExtractMultiParameterValues(StatsKey, params);
      if ids.Failure? {
        return Refused(NoConsumerIdentifiersFound, "No consumer identifiers provided");
      }
      var stats := registry.CollectHandlerStatistics(ids.value);
      match stats {
        case Success(e) => a := Answered(e);
        case Failure(m) => a := Refused(CollectingStatsFailed, m);
      }
    }

    /**
     * `processRequest`: serves the operation `SelectOpCode` picks and answers with exactly
     * one element below the root: the operation's element, or an `errors` element with the
     * single error that stopped it. Only a start request changes the registries.
     */
    method ProcessRequest(params: Params, oracle: Oracle) returns (resp: Response)
      requires Supplies(oracle, OperandCount(params, StartKey), OperandCount(params, StopKey), registry.running)
      requires registry.Valid()
      modifies registry
      ensures registry.Valid()
      ensures resp.root == RootTag && |resp.children| == 1
      ensures registry.available == old(registry.available)
      ensures SelectOpCode(params) != StartConsumers ==>
                registry.running == old(registry.running) && registry.pool == old(registry.pool)
      ensures SelectOpCode(params) == NoOpCode ==>
                resp.children[0] == ErrorsElement(UnknownOpCode, "No valid op-code provided")
      ensures SelectOpCode(params) == StartConsumers ==>
                match ExtractValues(StartKey, params)
                case Failure(_) => resp.children[0] == ErrorsElement(NoConsumerTypesFound, "No consumer types provided")
                case Success(types) =>
                  var b := RunBatch(Attempts(old(registry.available), types, configurationOptions + params,
                                             oracle.freshIds, oracle.creations));
                  match StartError(b, types)
                  case Some(m) => resp.children[0] == ErrorsElement(ConsumerStartFailed, m) &&
                                  registry.running == old(registry.running) && registry.pool == old(registry.pool)
                  case None =>
                    exists order :: IsOrdering(order, |b.workers|) &&
                      resp.children[0] == Element(StartTag, StartRecords(Reorder(b.workers, order))) &&
                      registry.pool == old(registry.pool) + Reorder(b.workers, order) &&
                      RegistersAll(old(registry.running), registry.running, Reorder(b.workers, order))
      ensures SelectOpCode(params) == StopConsumers ==>
                match ExtractValues(StopKey, params)
                case Failure(_) => resp.children[0] == ErrorsElement(NoConsumerIdentifiersFound, "No consumer identifiers provided")
                case Success(ids) => resp.children[0] == Element(ShutdownTag, StopRecords(registry.running, ids, oracle.shutdowns))
      ensures SelectOpCode(params) == CollectStats ==>
                match ExtractValues(StatsKey, params)
                case Failure(_) => resp.children[0] == ErrorsElement(NoConsumerIdentifiersFound, "No consumer identifiers provided")
                case Success(ids) =>
                  match Statistics(registry.running, ids)
                  case Failure(m) => resp.children[0] == ErrorsElement(CollectingStatsFailed, m)
                  case Success(es) => resp.children[0] == Element(StatsTag, es)
    {
      var a: Answer;
      if StartKey in params {
        a := ServeStart(params, oracle);
      } else if StopKey in params {
        a := ServeStop(params, oracle);
      } else if StatsKey in params {
        a := ServeStats(params);
      } else {
        a := Refused(UnknownOpCode, "No valid op-code provided");
      }
      resp := Respond(a);
    }
  }
}
