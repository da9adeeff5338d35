/**
 * What the two dispatchers share: the worker values they create, the registries of
 * available worker types and running workers (process-wide static maps in the program,
 * one object here that every handler holds), the outcome of bringing up a batch of
 * workers, and the unspecified iteration order of a hash set.
 */
module Registry {

  import opened Common
  import opened RequestParams
  import opened Response

  /**
   * A started worker: the identifier it was given, the type it was created for and the
   * options it was initialised with.
   */
  datatype Worker = Worker(id: string, kind: string, options: Params)

  /** How an attempt to create and initialise an instance of a worker class turns out. */
  datatype Creation =
    | Created
    | InstantiationFailed(msg: string)   // newInstance() raised InstantiationException
    | IllegalAccess(msg: string)         // newInstance() raised IllegalAccessException
    | InitializeFailed(msg: string)      // initialize() raised the handler's checked exception

  /** How a worker's `shutdown()` returns. */
  datatype Outcome = Done | Raised(msg: string)

  /**
   * The outside world a request may consult: one fresh identifier and one creation
   * outcome per requested type, one shutdown outcome per named worker.
   */
  datatype Oracle = Oracle(freshIds: seq<string>, creations: seq<Creation>, shutdowns: seq<Outcome>)

  /** The first `n` identifiers are pairwise distinct and none is registered yet. */
  predicate FreshIds(ids: seq<string>, n: nat, running: map<string, Worker>)
  {
    n <= |ids| &&
    (forall i, j :: 0 <= i < j < n ==> ids[i] != ids[j]) &&
    (forall i :: 0 <= i < n ==> ids[i] !in running)
  }

  /** The oracle can serve `starts` creations and `stops` shutdowns. */
  predicate Supplies(oracle: Oracle, starts: nat, stops: nat, running: map<string, Worker>)
  {
    FreshIds(oracle.freshIds, starts, running) && starts <= |oracle.creations| &&
    stops <= |oracle.shutdowns|
  }

  /**
   * The process-wide registries: worker types that may be started (type name to class
   * name), workers started and not forgotten (identifier to worker), and the workers handed
   * to the executor, in hand-over order.
   */
  class ConsumerRegistry {
    var available: map<string, string>
    var running: map<string, Worker>
    var pool: seq<Worker>

    /** Every running worker is filed under its own identifier. */
    ghost predicate Valid()
      reads this
    {
      forall id :: id in running ==> running[id].id == id
    }

    constructor ()
      ensures Valid()
      ensures available == map[] && running == map[] && pool == []
    {
      available := map[];
      running := map[];
      pool := [];
    }

    /**
     * Hands a worker to the executor and files it under its identifier unless that
     * identifier is taken (`putIfAbsent`).
     */
    method Launch(w: Worker)
      requires Valid()
      modifies this
      ensures Valid()
      ensures pool == old(pool) + [w]
      ensures running == if w.id in old(running) then old(running) else old(running)[w.id := w]
      ensures available == old(available)
    {
      pool := pool + [w];
      if w.id !in running {
        running := running[w.id := w];
      }
    }

    /**
     * `collectHandlerStatistics`: one `consumerStats` record per identifier, in request
     * order, or the error naming the first identifier that is not running.
     */
    method CollectHandlerStatistics(ids: seq<string>) returns (r: Result<Element, string>)
      ensures r.Success? <==> Statistics(running, ids).Success?
      ensures r.Success? ==> r.value == Element(StatsTag, Statistics(running, ids).value)
      ensures r.Failure? ==> r.error == Statistics(running, ids).error
    {
      var entries: seq<Entry> := [];
      var i := 0;
      while i < |ids|
        invariant 0 <= i <= |ids|
        invariant |entries| == i
        invariant forall k :: 0 <= k < i ==> ids[k] in running
        invariant forall k :: 0 <= k < i ==> entries[k] == Stats(ids[k], running[ids[k]].id, running[ids[k]].kind)
      {
        if ids[i] !in running {
          return Failure(NoSuchConsumer(ids[i]));
        }
        var consumer := running[ids[i]];
        entries := entries + [Stats(ids[i], consumer.id, consumer.kind)];
        i := i + 1;
      }
      return Success(Element(StatsTag, entries));
    }

    /**
     * Hands a batch over: every worker goes to the pool and into the
     * running registry, and gets a record in the response, in the order given.
     */
    method LaunchAll(ws: seq<Worker>) returns (entries: seq<Entry>)
      requires Valid() && DistinctFresh(ws, running)
      modifies this
      ensures Valid()
      ensures entries == StartRecords(ws)
      ensures pool == old(pool) + ws
      ensures RegistersAll(old(running), running, ws)
      ensures available == old(available)
    {
      entries := [];
      var j := 0;
      while j < |ws|
        invariant 0 <= j <= |ws|
        invariant Launched(old(running), old(pool), ws[..j], entries, running, pool)
        invariant DistinctFresh(ws[j..], running)
        invariant available == old(available)
        invariant Valid()
      {
        var w := ws[j];
        assert ws[..j + 1] == ws[..j] + [w];
        LaunchedStep(old(running), old(pool), ws[..j], entries, running, pool, w);
        FreshRest(ws[j..], running);
        assert ws[j..][1..] == ws[j + 1..];
        Launch(w);
        entries := entries + [Started(w.id, w.kind)];
        j := j + 1;
      }
      assert ws[..j] == ws;
    }

    /**
     * Hands over a batch collected in a hash set: `LaunchAll` in the set's iteration order,
     * which is some permutation `order` of the batch.
     */
    method LaunchInSomeOrder(ws: seq<Worker>) returns (entries: seq<Entry>, ghost order: seq<nat>)
      requires Valid() && DistinctFresh(ws, running)
      modifies this
      ensures Valid()
      ensures IsOrdering(order, |ws|)
      ensures entries == StartRecords(Reorder(ws, order))
      ensures pool == old(pool) + Reorder(ws, order)
      ensures RegistersAll(old(running), running, Reorder(ws, order))
      ensures available == old(available)
    {
      var o := SomeOrder(|ws|);
      ReorderDistinctFresh(ws, o, running);
      entries := LaunchAll(Reorder(ws, o));
      order := o;
    }
  }

  // ---------------------------------------------------------------------------------------
  // A batch of creations

  /** Creating the workers for a list of types: all of them, or up to the first failure. */
  datatype Batch =
    | AllCreated(workers: seq<Worker>)
    | FailedAt(index: nat, created: seq<Worker>, msg: string)

  /**
   * Runs a list of creation attempts in order and stops at the first that fails: either
   * every attempt succeeded, or `index` is the first failure and `created` what the
   * attempts before it produced.
   */
  function RunBatch(attempts: seq<Result<Worker, string>>): (b: Batch)
    ensures b.AllCreated? ==>
              |b.workers| == |attempts| &&
              forall k :: 0 <= k < |attempts| ==> attempts[k] == Success(b.workers[k])
    ensures b.FailedAt? ==>
              b.index < |attempts| && |b.created| == b.index &&
              (forall k :: 0 <= k < b.index ==> attempts[k] == Success(b.created[k])) &&
              attempts[b.index] == Failure(b.msg)
  {
    if attempts == [] then AllCreated([])
    else match attempts[0]
      case Failure(m) => FailedAt(0, [], m)
      case Success(w) =>
        match RunBatch(attempts[1..])
        case AllCreated(ws) => AllCreated([w] + ws)
        case FailedAt(i, ws, m) => FailedAt(i + 1, [w] + ws, m)
  }

  /** The first `|ws|` attempts succeeded, producing `ws` in order. */
  ghost predicate SucceededAs(attempts: seq<Result<Worker, string>>, ws: seq<Worker>)
  {
    |ws| <= |attempts| && forall k :: 0 <= k < |ws| ==> attempts[k] == Success(ws[k])
  }

  lemma SucceededAsStep(attempts: seq<Result<Worker, string>>, ws: seq<Worker>, w: Worker)
    requires SucceededAs(attempts, ws) && |ws| < |attempts| && attempts[|ws|] == Success(w)
    ensures SucceededAs(attempts, ws + [w])
  {
  }

  /** When every attempt succeeds the batch is the list of their workers. */
  lemma RunBatchAllCreated(attempts: seq<Result<Worker, string>>, ws: seq<Worker>)
    requires |ws| == |attempts|
    requires forall k :: 0 <= k < |attempts| ==> attempts[k] == Success(ws[k])
    ensures RunBatch(attempts) == AllCreated(ws)
  {
  }

  /** The first failing attempt decides the batch. */
  lemma RunBatchFailedAt(attempts: seq<Result<Worker, string>>, i: nat, ws: seq<Worker>, msg: string)
    requires i < |attempts| && |ws| == i
    requires forall k :: 0 <= k < i ==> attempts[k] == Success(ws[k])
    requires attempts[i] == Failure(msg)
    ensures RunBatch(attempts) == FailedAt(i, ws, msg)
  {
  }

  /** The records a `startConsumers` element lists for a list of workers. */
  function StartRecords(ws: seq<Worker>): (es: seq<Entry>)
    ensures |es| == |ws|
    ensures forall k :: 0 <= k < |ws| ==> es[k] == Started(ws[k].id, ws[k].kind)
  {
    if ws == [] then [] else StartRecords(ws[..|ws| - 1]) + [Started(ws[|ws| - 1].id, ws[|ws| - 1].kind)]
  }

  lemma StartRecordsAppend(ws: seq<Worker>, w: Worker)
    ensures StartRecords(ws + [w]) == StartRecords(ws) + [Started(w.id, w.kind)]
  {
    assert (ws + [w])[..|ws|] == ws;
  }

  /**
   * `after` is `before` with every worker of `ws` added under its own identifier, and no
   * other change.
   */
  ghost predicate RegistersAll(before: map<string, Worker>, after: map<string, Worker>, ws: seq<Worker>)
  {
    (forall id :: id in before ==> id in after && after[id] == before[id]) &&
    (forall k :: 0 <= k < |ws| ==> ws[k].id in after && after[ws[k].id] == ws[k]) &&
    (forall id :: id in after ==> id in before || exists k :: 0 <= k < |ws| && ws[k].id == id)
  }

  /** Identifiers of `ws` are pairwise distinct and none is registered in `running`. */
  predicate DistinctFresh(ws: seq<Worker>, running: map<string, Worker>)
  {
    (forall i, j :: 0 <= i < j < |ws| ==> ws[i].id != ws[j].id) &&
    (forall i :: 0 <= i < |ws| ==> ws[i].id !in running)
  }

  /**
   * A registry that started as `before` and a pool that started as `pool0` after handing
   * over `done`: each worker went to the pool, is registered, and has its record.
   */
  ghost predicate Launched(before: map<string, Worker>, pool0: seq<Worker>, done: seq<Worker>,
                           entries: seq<Entry>, running: map<string, Worker>, pool: seq<Worker>)
  {
    entries == StartRecords(done) && pool == pool0 + done && RegistersAll(before, running, done)
  }

  /** Handing over one more worker under a free identifier. */
  lemma LaunchedStep(before: map<string, Worker>, pool0: seq<Worker>, done: seq<Worker>,
                     entries: seq<Entry>, running: map<string, Worker>, pool: seq<Worker>, w: Worker)
    requires Launched(before, pool0, done, entries, running, pool) && w.id !in running
    ensures Launched(before, pool0, done + [w], entries + [Started(w.id, w.kind)], running[w.id := w], pool + [w])
  {
    RegisterOne(before, running, done, w);
    StartRecordsAppend(done, w);
  }

  /** The workers after the first of a fresh batch stay fresh once the first is registered. */
  lemma FreshRest(ws: seq<Worker>, running: map<string, Worker>)
    requires ws != [] && DistinctFresh(ws, running)
    ensures DistinctFresh(ws[1..], running[ws[0].id := ws[0]])
  {
  }

  /** Nothing registered is the registry itself. */
  lemma RegistersNone(running: map<string, Worker>)
    ensures RegistersAll(running, running, [])
  {
  }

  /** Registering one more worker under a free identifier extends a registration. */
  lemma RegisterOne(before: map<string, Worker>, after: map<string, Worker>, ws: seq<Worker>, w: Worker)
    requires RegistersAll(before, after, ws)
    requires w.id !in after
    ensures RegistersAll(before, after[w.id := w], ws + [w])
  {
    var after' := after[w.id := w];
    var ws' := ws + [w];
    forall id | id in after'
      ensures id in before || exists k :: 0 <= k < |ws'| && ws'[k].id == id
    {
      if id == w.id {
        assert ws'[|ws|].id == id;
      } else if id !in before {
        var k :| 0 <= k < |ws| && ws[k].id == id;
        assert ws'[k].id == id;
      }
    }
  }

  // ---------------------------------------------------------------------------------------
  // Hash-set iteration order

  /** `order` lists each index below `n` exactly once. */
  ghost predicate IsOrdering(order: seq<nat>, n: nat)
  {
    |order| == n &&
    (forall j :: 0 <= j < n ==> order[j] < n) &&
    (forall j, k :: 0 <= j < k < n ==> order[j] != order[k]) &&
    (forall i :: 0 <= i < n ==> i in order)
  }

  /** The elements of `s` in the order `order` visits them. */
  function Reorder<T>(s: seq<T>, order: seq<nat>): (r: seq<T>)
    requires forall j :: 0 <= j < |order| ==> order[j] < |s|
    ensures |r| == |order|
    ensures forall j :: 0 <= j < |order| ==> r[j] == s[order[j]]
  {
    if order == [] then [] else Reorder(s, order[..|order| - 1]) + [s[order[|order| - 1]]]
  }

  /** The indices below `n`. */
  function Indices(n: nat): (r: set<nat>)
    ensures forall i: nat :: i in r <==> i < n
    ensures |r| == n
  {
    if n == 0 then {} else Indices(n - 1) + {n - 1}
  }

  /** Visiting distinct fresh workers in another order keeps them distinct and fresh. */
  lemma ReorderDistinctFresh(ws: seq<Worker>, order: seq<nat>, running: map<string, Worker>)
    requires DistinctFresh(ws, running) && IsOrdering(order, |ws|)
    ensures DistinctFresh(Reorder(ws, order), running)
  {
    var r := Reorder(ws, order);
    forall i, j | 0 <= i < j < |r|
      ensures r[i].id != r[j].id
    {
      assert r[i] == ws[order[i]] && r[j] == ws[order[j]] && order[i] != order[j];
    }
  }

  /** The order in which a hash set of `n` elements yields them: some permutation of `0..n`. */
  method SomeOrder(n: nat) returns (order: seq<nat>)
    ensures IsOrdering(order, n)
  {
    order := [];
    var remaining: set<nat> := Indices(n);
    while remaining != {}
      invariant forall i: nat :: i < n ==> (i in remaining <==> i !in order)
      invariant forall i :: i in remaining ==> i < n
      invariant forall j :: 0 <= j < |order| ==> order[j] < n
      invariant forall j, k :: 0 <= j < k < |order| ==> order[j] != order[k]
      invariant |order| + |remaining| == n
      decreases |remaining|
    {
      var i: nat := Pick<nat>(remaining);
      order := order + [i];
      remaining := remaining - {i};
    }
  }

  // ---------------------------------------------------------------------------------------
  // Shutdown

  /** The workers a shutdown request calls `shutdown()` on: the known ones, in request order. */
  function StoppedWorkers(running: map<string, Worker>, ids: seq<string>): (ws: seq<Worker>)
    ensures forall w :: w in ws ==> w in running.Values
    ensures forall k :: 0 <= k < |ids| && ids[k] in running ==> running[ids[k]] in ws
    ensures |ws| <= |ids|
  {
    if ids == [] then []
    else
      var n := |ids| - 1;
      StoppedWorkers(running, ids[..n]) + (if ids[n] in running then [running[ids[n]]] else [])
  }

  /**
   * `ws` are the workers running under the known identifiers of `ids`, position by
   * position: the `k`-th is the one under `ids[at[k]]`, the positions rise, and every known
   * identifier has its position.
   */
  ghost predicate StopPositions(running: map<string, Worker>, ids: seq<string>, ws: seq<Worker>, at: seq<nat>)
  {
    && |at| == |ws|
    && (forall k :: 0 <= k < |at| ==> at[k] < |ids| && ids[at[k]] in running && ws[k] == running[ids[at[k]]])
    && (forall j, k :: 0 <= j < k < |at| ==> at[j] < at[k])
    && (forall i :: 0 <= i < |ids| && ids[i] in running ==> i in at)
  }

  /** The stopped workers are exactly the known identifiers' workers, in request order. */
  lemma {:induction false} StoppedWorkersInOrder(running: map<string, Worker>, ids: seq<string>)
    returns (at: seq<nat>)
    ensures StopPositions(running, ids, StoppedWorkers(running, ids), at)
  {
    if ids == [] {
      at := [];
    } else {
      var n := |ids| - 1;
      var at0 := StoppedWorkersInOrder(running, ids[..n]);
      if ids[n] in running {
        at := at0 + [n];
        StopPositionsKnown(running, ids, StoppedWorkers(running, ids[..n]), at0);
      } else {
        at := at0;
        StopPositionsUnknown(running, ids, StoppedWorkers(running, ids[..n]), at0);
      }
    }
  }

  /** A last identifier that is running adds its worker at its position. */
  lemma StopPositionsKnown(running: map<string, Worker>, ids: seq<string>, ws: seq<Worker>, at: seq<nat>)
    requires ids != [] && ids[|ids| - 1] in running
    requires StopPositions(running, ids[..|ids| - 1], ws, at)
    ensures StopPositions(running, ids, ws + [running[ids[|ids| - 1]]], at + [|ids| - 1])
  {
    var n := |ids| - 1;
    forall i | 0 <= i < |ids| && ids[i] in running
      ensures i in at + [n]
    {
      if i < n {
        assert ids[..n][i] == ids[i];
      }
    }
  }

  /** A last identifier that is not running adds nothing. */
  lemma StopPositionsUnknown(running: map<string, Worker>, ids: seq<string>, ws: seq<Worker>, at: seq<nat>)
    requires ids != [] && ids[|ids| - 1] !in running
    requires StopPositions(running, ids[..|ids| - 1], ws, at)
    ensures StopPositions(running, ids, ws, at)
  {
    var n := |ids| - 1;
    forall i | 0 <= i < |ids| && ids[i] in running
      ensures i in at
    {
      assert ids[..n][i] == ids[i];
    }
  }

  // ---------------------------------------------------------------------------------------
  // Statistics

  function NoSuchConsumer(id: string): string
  {
    "No such consumer: " + id
  }

  /**
   * What `collectHandlerStatistics` yields: one `consumerStats` record per identifier, in
   * request order, or the error naming the first identifier that is not running.
   */
  function Statistics(running: map<string, Worker>, ids: seq<string>): (r: Result<seq<Entry>, string>)
    ensures r.Failure? <==> exists i :: 0 <= i < |ids| && ids[i] !in running
    ensures r.Failure? ==>
              exists i :: 0 <= i < |ids| && ids[i] !in running && r.error == NoSuchConsumer(ids[i]) &&
                forall j :: 0 <= j < i ==> ids[j] in running
    ensures r.Success? ==>
              |r.value| == |ids| &&
              forall i :: 0 <= i < |ids| ==>
                r.value[i] == Stats(ids[i], running[ids[i]].id, running[ids[i]].kind)
  {
    if ids == [] then Success([])
    else if ids[0] !in running then Failure(NoSuchConsumer(ids[0]))
    else
      var w := running[ids[0]];
      match Statistics(running, ids[1..])
      case Failure(m) => Failure(m)
      case Success(rest) => Success([Stats(ids[0], w.id, w.kind)] + rest)
  }

  /** The identifiers of a list of workers, in order. */
  function IdsOf(ws: seq<Worker>): (ids: seq<string>)
    ensures |ids| == |ws| && forall k :: 0 <= k < |ws| ==> ids[k] == ws[k].id
  {
    seq(|ws|, k requires 0 <= k < |ws| => ws[k].id)
  }

  /**
   * Once a batch is registered, statistics for its identifiers succeed and report each
   * worker under its own identifier with its type.
   */
  lemma StatisticsAfterStart(before: map<string, Worker>, after: map<string, Worker>, ws: seq<Worker>)
    requires RegistersAll(before, after, ws)
    ensures Statistics(after, IdsOf(ws)).Success?
    ensures forall k :: 0 <= k < |ws| ==> Statistics(after, IdsOf(ws)).value[k] == Stats(ws[k].id, ws[k].id, ws[k].kind)
  {
    var ids := IdsOf(ws);
    assert forall k :: 0 <= k < |ids| ==> ids[k] in after;
  }

  /**
   * The handler's own test: statistics for two identifiers that were never started fail
   * on the first of them, with no partial list.
   */
  lemma StatisticsOfUnstartedIds(running: map<string, Worker>)
    requires "test1" !in running
    ensures Statistics(running, ["test1", "test2"]) == Failure(NoSuchConsumer("test1"))
  {
  }
}
