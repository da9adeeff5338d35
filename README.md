# ptest consumer control plane in Dafny

A model of the control plane of the ptest consumer server, with proofs of what it promises.
It covers four parts.

- **The async context handler** (`AsyncContext`). It reads the worker types it may start from
  its `consumer.async.<type>` configuration keys. It serves start, stop and statistics requests
  against the shared registries. Starting is all-or-nothing: when one creation fails, nothing is
  registered and the workers already created are shut down again.
- **The HTTP upstream handler** (`UpstreamHandler`). It registers worker types first-come-first-kept.
  It routes requests by URI prefix: the control path, the mock endpoint with its call counter, or
  `<Error/>`. It serves the same three operations. Starting is fail-fast without rollback: workers
  created before a failure stay registered.
- **The request-handler table** of the entry point (`ConsumerMain`). A comma list of handler
  names in the configuration becomes a path-to-class map.
- **The command-line processor** (`CommandLine`) and the entry point's option table. Long and
  short option lookup, the required check, trimming and `long` parsing. Any failure makes the
  whole result `null`.

Shared parts:

- `Common`: Option/Result, and `PutAll`, the map a run of overwriting `put` calls builds.
- `JavaStrings`: the Java `String`, `Long` and `int` behaviour relied on (`trim`, `startsWith`,
  `equalsIgnoreCase`, `split(",")`, `Long.valueOf`/`Long.toString`, `int` wrap-around).
- `Response`: the response document as a small tree.
- `RequestParams`: op-code selection and operand extraction.
- `Registry`: workers, the registries as one `ConsumerRegistry` object every handler holds
  (static maps in the program), batches of creations and hash-set order. Its invariant
  `Valid` (every running worker is filed under its own id) is set up by the constructor and
  required and kept by every method of either handler that changes the registries.

How the model stands in for what it cannot see:

- The outside world is an `Oracle` parameter: one fresh id and one creation outcome per
  requested type, and one shutdown outcome per named worker.
- Fresh ids are assumed pairwise distinct and unregistered, as UUIDs are.
- The iteration order of a Java hash set or map is an unspecified permutation (`SomeOrder`, `Take`).
  Contracts that depend on it say "for some order".

Where the code and its description differ, the model follows the code:

- Routing tests the URI with `startsWith`, not for containment.
- The two handlers have different start policies: all-or-nothing with rollback, and fail-fast
  without rollback.
- A stopped worker stays in the running registry in both handlers.
- A required command-line option given only blanks passes the required check, because the check
  tests for the empty string. A Long option given that way then yields no value, so the parse
  succeeds without it (`CommandLine.RequiredBlankLongYieldsNothing`,
  `ConsumerMain.BlankPortParsesWithoutPort`).

## Model

| member | source | states |
|---|---|---|
| Common.PutAllKeys | ptest-consumer/src/main/java/com/mnxfst/testing/consumer/cmd/CommandLineProcessor.java:72-87 | after a run of overwriting `put`s the map has a key exactly when some put used it |
| Common.PutAllLastWins | src/main/java/com/mnxfst/testing/consumer/TSConsumerMain.java:162-167 | a put that no later put overwrites decides the value under its key |
| Common.PutAllFrom | ptest-consumer/src/main/java/com/mnxfst/testing/consumer/cmd/CommandLineProcessor.java:72-87 | every entry of the map was put by some put, with the value that put carried |
| JavaStrings.Trim | src/main/java/com/mnxfst/testing/consumer/handler/async/AsyncConsumerContextHttpRequestHandler.java:515 | `trim()` keeps the window between the first and last non-trimmable code units; everything cut off is `<= ' '`; the result is empty exactly for a blank string |
| JavaStrings.TrimRemovesBlanks | ptest-consumer/src/main/java/com/mnxfst/testing/consumer/cmd/CommandLineProcessor.java:155 | trimming removes blank runs from both ends and nothing else: the value is its trimmed form between two blank runs |
| JavaStrings.TrimIdempotent | ptest-consumer/src/main/java/com/mnxfst/testing/consumer/cmd/CommandLineProcessor.java:155 | trimming a trimmed value changes nothing |
| JavaStrings.EqualsIgnoreCaseIsLowerCaseEquality | src/main/java/com/mnxfst/testing/consumer/handler/TSConsumerChannelUpstreamHandler.java:198 | case-insensitive equality (ASCII letters) is equality after lower-casing, both directions |
| JavaStrings.SplitComma | src/main/java/com/mnxfst/testing/consumer/TSConsumerMain.java:159 | no piece of `split(",")` contains a comma |
| JavaStrings.JoinPieces | src/main/java/com/mnxfst/testing/consumer/TSConsumerMain.java:159 | joining the comma-separated pieces of a string with commas gives the string back |
| JavaStrings.PiecesOfJoin | src/main/java/com/mnxfst/testing/consumer/TSConsumerMain.java:159 | splitting comma-free pieces joined with commas gives the pieces back |
| JavaStrings.SplitEmptyIffOnlyCommas | src/main/java/com/mnxfst/testing/consumer/TSConsumerMain.java:159-160 | `split(",")` yields no element exactly for a non-empty string of commas alone |
| JavaStrings.ParseLong | ptest-consumer/src/main/java/com/mnxfst/testing/consumer/cmd/CommandLineProcessor.java:132 | `Long.valueOf` accepts only an optional sign and decimal digits, and only values inside the `long` range |
| JavaStrings.ParseLongRoundTrip | ptest-consumer/src/main/java/com/mnxfst/testing/consumer/cmd/CommandLineProcessor.java:132 | `Long.valueOf(Long.toString(n)) == n` for every `long` |
| JavaStrings.IntIncrement | src/main/java/com/mnxfst/testing/consumer/handler/TSConsumerChannelUpstreamHandler.java:303 | the `int` counter goes up by one and wraps from `Integer.MAX_VALUE` to `Integer.MIN_VALUE` |
| Response.CreateErrorElement | src/main/java/com/mnxfst/testing/consumer/handler/async/AsyncConsumerContextHttpRequestHandler.java:548-578 | one `error` record per map entry, codes distinct, each with its message; reading the records back gives the map; an empty map gives an empty `errors` element |
| Response.AssembleResponse | src/main/java/com/mnxfst/testing/consumer/handler/async/AsyncConsumerContextHttpRequestHandler.java:284-291 | the root holds the operation element, if any, followed by an `errors` element exactly when the error map is non-empty |
| Response.Respond | src/main/java/com/mnxfst/testing/consumer/handler/TSConsumerChannelUpstreamHandler.java:291-298 | an answered operation or a single refused error gives exactly one element below the root: the operation element or the one-error `errors` element |
| RequestParams.SelectOpCode | src/main/java/com/mnxfst/testing/consumer/handler/async/AsyncConsumerContextHttpRequestHandler.java:213-282 | precedence start, then stop, then collectStats, each case stated as an if-and-only-if over which keys are present; none present is the unknown op-code |
| RequestParams.ExtractMultiParameterValues | src/main/java/com/mnxfst/testing/consumer/handler/async/AsyncConsumerContextHttpRequestHandler.java:508-521 | fails, with the no-values message, exactly when the parameter is absent or empty; otherwise one value per entry, in order, trimmed, `null` as "" |
| RequestParams.ExtractedValuesAreTrimmed | src/main/java/com/mnxfst/testing/consumer/handler/TSConsumerChannelUpstreamHandler.java:466-479 | every extracted value is already trimmed |
| RequestParams.ExtractValuesRejectsMissing | src/test/java/com/mnxfst/testing/consumer/handler/TestTSConsumerChannelUpstreamHandler.java:135-150 | an absent parameter and an empty value list are both refused |
| RequestParams.ExtractValuesExamples | src/test/java/com/mnxfst/testing/consumer/handler/TestTSConsumerChannelUpstreamHandler.java:152-166 | `["jmsConnector"]` and `["jmsConnector","soapConnector"]` come back as they were sent, in order |
| Registry.ConsumerRegistry.constructor | src/main/java/com/mnxfst/testing/consumer/handler/async/AsyncConsumerContextHttpRequestHandler.java:126-130 | empty type table, running registry and pool |
| Registry.ConsumerRegistry.Launch | src/main/java/com/mnxfst/testing/consumer/handler/TSConsumerChannelUpstreamHandler.java:343-344 | the worker goes to the pool and is filed under its id unless that id is taken (`putIfAbsent`); every running worker stays filed under its own id |
| Registry.ConsumerRegistry.LaunchAll | src/main/java/com/mnxfst/testing/consumer/handler/async/AsyncConsumerContextHttpRequestHandler.java:339-362 | every worker of the batch goes to the pool and is registered under its id, with one (id, type) record each, in the order handed over; nothing else changes, and every running worker stays filed under its own id |
| Registry.ConsumerRegistry.LaunchInSomeOrder | src/main/java/com/mnxfst/testing/consumer/handler/async/AsyncConsumerContextHttpRequestHandler.java:340-362 | as `LaunchAll`, in some permutation of the batch (hash-set order), the same one for pool, registry and records |
| Registry.ConsumerRegistry.CollectHandlerStatistics | src/main/java/com/mnxfst/testing/consumer/handler/async/AsyncConsumerContextHttpRequestHandler.java:438-463 | the `statistics` element of `Statistics`, or its error |
| Registry.Statistics | src/main/java/com/mnxfst/testing/consumer/handler/TSConsumerChannelUpstreamHandler.java:430-455 | fails exactly when some id is not running, with "No such consumer: " and the first such id; otherwise one (consumerId, id, type) record per id, in order |
| Registry.StatisticsOfUnstartedIds | src/test/java/com/mnxfst/testing/consumer/handler/TestTSConsumerChannelUpstreamHandler.java:169-184 | statistics for ids never started fail on the first, with no partial list |
| Registry.RunBatch | src/main/java/com/mnxfst/testing/consumer/handler/async/AsyncConsumerContextHttpRequestHandler.java:322-336 | either every creation succeeded, giving their workers in order, or `index` is the first failure and `created` the workers before it |
| Registry.RunBatchAllCreated | src/main/java/com/mnxfst/testing/consumer/handler/async/AsyncConsumerContextHttpRequestHandler.java:322-336 | when every creation succeeds the batch is the list of their workers |
| Registry.RunBatchFailedAt | src/main/java/com/mnxfst/testing/consumer/handler/async/AsyncConsumerContextHttpRequestHandler.java:322-336 | the first failing creation decides the batch and its message |
| Registry.StartRecords | src/main/java/com/mnxfst/testing/consumer/handler/async/AsyncConsumerContextHttpRequestHandler.java:345-358 | one (id, type) record per worker, in the same order |
| Registry.StatisticsAfterStart | src/main/java/com/mnxfst/testing/consumer/handler/async/AsyncConsumerContextHttpRequestHandler.java:438-463 | once a batch is registered, statistics for its ids succeed and report each worker under its own id with its type |
| Registry.SomeOrder | src/main/java/com/mnxfst/testing/consumer/handler/async/AsyncConsumerContextHttpRequestHandler.java:340 | the iteration order of a hash set of n elements is a permutation of 0..n |
| Registry.StoppedWorkers | src/main/java/com/mnxfst/testing/consumer/handler/async/AsyncConsumerContextHttpRequestHandler.java:385-401 | only running workers are shut down, and every named running worker is |
| Registry.StoppedWorkersInOrder | src/main/java/com/mnxfst/testing/consumer/handler/async/AsyncConsumerContextHttpRequestHandler.java:385-401 | the workers shut down are exactly those running under the named ids, one per known id, in request order |
| AsyncContext.TypeOfKey | src/main/java/com/mnxfst/testing/consumer/handler/async/AsyncConsumerContextHttpRequestHandler.java:177-178 | the suffix after `consumer.async.` is the type the key declares |
| AsyncContext.InstantiateAsyncInputConsumer | src/main/java/com/mnxfst/testing/consumer/handler/async/AsyncConsumerContextHttpRequestHandler.java:473-497 | an empty type, then an unregistered type, are refused with their messages; success exactly when the type is registered and creation works; the worker carries the requested type, the fresh id and the given options; a failing `initialize` passes its message on |
| AsyncContext.AllCreatedUseFreshIds | src/main/java/com/mnxfst/testing/consumer/handler/async/AsyncConsumerContextHttpRequestHandler.java:486-489 | every worker of a fully created batch has the requested type, a registered type, the fresh id of its position and the merged options |
| AsyncContext.AllCreatedDistinctFresh | src/main/java/com/mnxfst/testing/consumer/handler/async/AsyncConsumerContextHttpRequestHandler.java:343 | distinct fresh ids make a created batch distinct and unregistered, so `putIfAbsent` stores each worker |
| AsyncContext.StopRecords | src/main/java/com/mnxfst/testing/consumer/handler/async/AsyncConsumerContextHttpRequestHandler.java:383-422 | one record per id, in order: state 2 exactly for unknown ids, 1 exactly for a clean shutdown, 3 exactly for a raised one, with the message only in the last case |
| AsyncContext.ReadConfiguration | src/main/java/com/mnxfst/testing/consumer/handler/async/AsyncConsumerContextHttpRequestHandler.java:169-187 | succeeds exactly when every `consumer.async.` key names a loadable class; then every non-null entry with a non-empty key is stored as a one-value list and the type table is the earlier one overwritten with the declared types; on every run, types the configuration does not mention keep their class, and options come only from the earlier options or the configuration |
| AsyncContext.ReadEntry | src/main/java/com/mnxfst/testing/consumer/handler/async/AsyncConsumerContextHttpRequestHandler.java:170-186 | one entry: stored as an option when non-null under a non-empty key; for a type key, refused exactly when its class cannot be loaded, otherwise that type alone is (re)registered; other keys leave the type table as it was |
| AsyncContext.AsyncConsumerContextHandler.constructor | src/main/java/com/mnxfst/testing/consumer/handler/async/AsyncConsumerContextHttpRequestHandler.java:141-147 | empty configuration options, shared registry |
| AsyncContext.AsyncConsumerContextHandler.Initialize | src/main/java/com/mnxfst/testing/consumer/handler/async/AsyncConsumerContextHttpRequestHandler.java:153-192 | on success the options gain the configuration and the type table is the earlier table overwritten with the declared types, so earlier types not redeclared stay; on every run undeclared types keep their class; running workers and pool untouched |
| AsyncContext.AsyncConsumerContextHandler.CreateConsumers | src/main/java/com/mnxfst/testing/consumer/handler/async/AsyncConsumerContextHttpRequestHandler.java:322-336 | tries the types in order and stops at the first failure: the batch is `RunBatch` of the creation attempts |
| AsyncContext.AsyncConsumerContextHandler.StartConsumer | src/main/java/com/mnxfst/testing/consumer/handler/async/AsyncConsumerContextHttpRequestHandler.java:310-369 | all-or-nothing: on a failure (or an empty batch) nothing is registered or pooled, the error names the failing type, and the workers created so far are shut down; on success every worker is pooled and registered and listed, in one hash-set order; options are the configuration overridden by the request |
| AsyncContext.AsyncConsumerContextHandler.ShutdownConsumer | src/main/java/com/mnxfst/testing/consumer/handler/async/AsyncConsumerContextHttpRequestHandler.java:378-426 | the `shutdownConsumers` element of `StopRecords`; the workers shut down are the running ones named; the registries are unchanged |
| AsyncContext.AsyncConsumerContextHandler.ServeStart | src/main/java/com/mnxfst/testing/consumer/handler/async/AsyncConsumerContextHttpRequestHandler.java:213-234 | no types gives error 1; a failed start gives error 4 and no change; otherwise the start element |
| AsyncContext.AsyncConsumerContextHandler.ServeStop | src/main/java/com/mnxfst/testing/consumer/handler/async/AsyncConsumerContextHttpRequestHandler.java:235-256 | no ids gives error 2; otherwise the shutdown element |
| AsyncContext.AsyncConsumerContextHandler.ServeStats | src/main/java/com/mnxfst/testing/consumer/handler/async/AsyncConsumerContextHttpRequestHandler.java:257-278 | no ids gives error 2; an unknown id gives error 3; otherwise the statistics element |
| AsyncContext.AsyncConsumerContextHandler.ProcessRequest | src/main/java/com/mnxfst/testing/consumer/handler/async/AsyncConsumerContextHttpRequestHandler.java:197-299 | exactly one child below the root; the op-code precedence with each branch outcome; error 6 with no op-code; only a start request changes the registries |
| UpstreamHandler.KeepAliveIgnoresCase | src/main/java/com/mnxfst/testing/consumer/handler/TSConsumerChannelUpstreamHandler.java:198 | keep-alive exactly when the `Connection` header lower-cases to `keep-alive`; absent header means close |
| UpstreamHandler.RequestParamsOf | src/main/java/com/mnxfst/testing/consumer/handler/TSConsumerChannelUpstreamHandler.java:202-208 | for POST the body parameters are merged over the URI parameters, body winning on shared keys; otherwise the URI parameters |
| UpstreamHandler.RouteOf | src/main/java/com/mnxfst/testing/consumer/handler/TSConsumerChannelUpstreamHandler.java:211-311 | `/consumer` prefix first, then the mock prefix, otherwise unknown, each as an if-and-only-if |
| UpstreamHandler.SpawnHandler | src/main/java/com/mnxfst/testing/consumer/handler/TSConsumerChannelUpstreamHandler.java:328-361 | an unregistered type is refused naming it; instantiation failures name the type; a failing `initialize` passes its message on; a created worker carries type, fresh id and request parameters |
| UpstreamHandler.StopRecords | src/main/java/com/mnxfst/testing/consumer/handler/TSConsumerChannelUpstreamHandler.java:382-414 | one (id, state) record per id, in order: 2 exactly for unknown, 1 for a clean shutdown, 3 for a raised one |
| UpstreamHandler.StopUnstartedIds | src/test/java/com/mnxfst/testing/consumer/handler/TestTSConsumerChannelUpstreamHandler.java:215-242 | stopping two ids never started reports both as unknown, in order |
| UpstreamHandler.PutIfAbsentStep | src/main/java/com/mnxfst/testing/consumer/handler/TSConsumerChannelUpstreamHandler.java:177-179 | one `putIfAbsent` leaves a present type alone and adds an absent one |
| UpstreamHandler.TSConsumerChannelUpstreamHandler.Init | src/main/java/com/mnxfst/testing/consumer/handler/TSConsumerChannelUpstreamHandler.java:142 | mock call count starts at zero; shared registry |
| UpstreamHandler.TSConsumerChannelUpstreamHandler.Create | src/main/java/com/mnxfst/testing/consumer/handler/TSConsumerChannelUpstreamHandler.java:152-188 | refused exactly for a missing or empty type map; otherwise the type table becomes the old table with only the new types added, earlier registrations winning |
| UpstreamHandler.TSConsumerChannelUpstreamHandler.StartOne | src/main/java/com/mnxfst/testing/consumer/handler/TSConsumerChannelUpstreamHandler.java:326-359 | one creation; on success the worker is registered, pooled and recorded, on failure nothing changes |
| UpstreamHandler.TSConsumerChannelUpstreamHandler.StartEach | src/main/java/com/mnxfst/testing/consumer/handler/TSConsumerChannelUpstreamHandler.java:326-364 | attempts in order until the first failure; the workers created before it are registered, pooled and recorded |
| UpstreamHandler.TSConsumerChannelUpstreamHandler.StartConsumer | src/main/java/com/mnxfst/testing/consumer/handler/TSConsumerChannelUpstreamHandler.java:321-368 | fail-fast without rollback: on the first failure its message is the error and the workers created before it stay registered and pooled; on success one record per worker in request order |
| UpstreamHandler.TSConsumerChannelUpstreamHandler.ShutdownConsumer | src/main/java/com/mnxfst/testing/consumer/handler/TSConsumerChannelUpstreamHandler.java:377-418 | the `shutdownConsumers` element of `StopRecords`; registries unchanged |
| UpstreamHandler.TSConsumerChannelUpstreamHandler.ServeStart | src/main/java/com/mnxfst/testing/consumer/handler/TSConsumerChannelUpstreamHandler.java:219-242 | no types gives error 1; a failed start gives error 4 with the earlier workers kept; otherwise the start element |
| UpstreamHandler.TSConsumerChannelUpstreamHandler.ServeStop | src/main/java/com/mnxfst/testing/consumer/handler/TSConsumerChannelUpstreamHandler.java:244-265 | no ids gives error 2; otherwise the shutdown element |
| UpstreamHandler.TSConsumerChannelUpstreamHandler.ServeStats | src/main/java/com/mnxfst/testing/consumer/handler/TSConsumerChannelUpstreamHandler.java:267-285 | no ids gives error 2; an unknown id gives error 3; otherwise the statistics element |
| UpstreamHandler.TSConsumerChannelUpstreamHandler.ControlRequest | src/main/java/com/mnxfst/testing/consumer/handler/TSConsumerChannelUpstreamHandler.java:213-300 | exactly one child below the root; op-code precedence with each branch outcome; error 6 with no op-code; only a start request changes the registries |
| UpstreamHandler.TSConsumerChannelUpstreamHandler.MessageReceived | src/main/java/com/mnxfst/testing/consumer/handler/TSConsumerChannelUpstreamHandler.java:193-312 | keep-alive as the header says; control path gives a one-child document and is the only route touching the registries; mock path increments the `int` counter by one and replies `<response>N</response>` with the new N; any other path replies `<Error/>` |
| CommandLine.ExtractLongValue | ptest-consumer/src/main/java/com/mnxfst/testing/consumer/cmd/CommandLineProcessor.java:123-138 | any value it yields is inside the `long` range |
| CommandLine.ExtractLongThroughString | ptest-consumer/src/main/java/com/mnxfst/testing/consumer/cmd/CommandLineProcessor.java:123-138 | long extraction is string extraction followed by `Long.valueOf`: the same missing-value failure; a non-empty extracted string gives its number or the not-numeric failure naming the value as given; an empty or absent one gives no value |
| CommandLine.ExtractStringValue | ptest-consumer/src/main/java/com/mnxfst/testing/consumer/cmd/CommandLineProcessor.java:148-156 | any value it yields is trimmed |
| CommandLine.ExtractStringMeaning | ptest-consumer/src/main/java/com/mnxfst/testing/consumer/cmd/CommandLineProcessor.java:148-156 | fails exactly when nothing is given to a required option, with the missing-value message; yields nothing exactly when nothing is given; otherwise the given value with blank runs, and only blanks, removed from both ends |
| CommandLine.LongNameFirst | ptest-consumer/src/main/java/com/mnxfst/testing/consumer/cmd/CommandLineProcessor.java:124-126 | the long name wins unless its value is empty, then the short name; an empty long value with no short value is nothing |
| CommandLine.RequiredBlankLongYieldsNothing | ptest-consumer/src/main/java/com/mnxfst/testing/consumer/cmd/CommandLineProcessor.java:125-137 | a required Long option given only a blank passes the required check and yields no value; an empty one fails |
| CommandLine.ExtractLongRoundTrip | ptest-consumer/src/main/java/com/mnxfst/testing/consumer/cmd/CommandLineProcessor.java:130-132 | a value written by `Long.toString` extracts to itself |
| CommandLine.ExtractStringRoundTrip | ptest-consumer/src/main/java/com/mnxfst/testing/consumer/cmd/CommandLineProcessor.java:155 | a value without surrounding blanks extracts to itself |
| CommandLine.FirstFailure | ptest-consumer/src/main/java/com/mnxfst/testing/consumer/cmd/CommandLineProcessor.java:73-91 | the index of the first option whose extraction fails: every earlier one succeeds |
| CommandLine.ParseCommandLine | ptest-consumer/src/main/java/com/mnxfst/testing/consumer/cmd/CommandLineProcessor.java:49-96 | the loop computes `ParseOutcome`: the empty-list, parser and first-failing-option errors, else the map of the puts |
| CommandLine.ParseFailsWholly | ptest-consumer/src/main/java/com/mnxfst/testing/consumer/cmd/CommandLineProcessor.java:52-91 | the result is null exactly when the list is empty, the parser rejects, or some option fails; the hint is then the first failing option's missing-value message |
| CommandLine.ParsedKeys | ptest-consumer/src/main/java/com/mnxfst/testing/consumer/cmd/CommandLineProcessor.java:72-87 | a successful result has an entry exactly under the value-map names of options that yield a value |
| CommandLine.ParsedLastWins | ptest-consumer/src/main/java/com/mnxfst/testing/consumer/cmd/CommandLineProcessor.java:72-87 | each entry holds the value of the last option that yields a value under that name |
| CommandLine.OptionPutShape | ptest-consumer/src/main/java/com/mnxfst/testing/consumer/cmd/CommandLineProcessor.java:75-87 | a stored value goes under the option's value-map name and is a number exactly for a Long option |
| CommandLine.ParsedEntryOrigin | ptest-consumer/src/main/java/com/mnxfst/testing/consumer/cmd/CommandLineProcessor.java:72-94 | every entry of a successful result comes from an option with that value-map name, a number exactly when that option is a Long option |
| CommandLine.RequiredStringPresent | ptest-consumer/src/main/java/com/mnxfst/testing/consumer/cmd/CommandLineProcessor.java:81-86 | a required String option is always in a successful result |
| ConsumerMain.ExtractRequestHandlers | src/main/java/com/mnxfst/testing/consumer/TSConsumerMain.java:153-179 | the indexed loop computes `RequestHandlers`: null without properties, list, or names; otherwise the map of the puts of the listed names |
| ConsumerMain.HandlerPuts | src/main/java/com/mnxfst/testing/consumer/TSConsumerMain.java:162-170 | one put per listed name, in order, each a (path, class) pair exactly when both are given |
| ConsumerMain.RequestHandlersNull | src/main/java/com/mnxfst/testing/consumer/TSConsumerMain.java:155-177 | null exactly when the properties are null, the handler list is absent or empty, or it is made of commas alone |
| ConsumerMain.RequestHandlersEntries | src/main/java/com/mnxfst/testing/consumer/TSConsumerMain.java:161-172 | a path is a key exactly when some listed name gives both it and a class; the class is that of the last such name |
| ConsumerMain.LaterHandlerWins | src/main/java/com/mnxfst/testing/consumer/TSConsumerMain.java:162-167 | two names sharing a path: the later one decides the class |
| ConsumerMain.SplitTwo | src/main/java/com/mnxfst/testing/consumer/TSConsumerMain.java:159 | two comma-free non-empty names joined by a comma split back into the two names |
| ConsumerMain.SingleHandlerListed | src/main/java/com/mnxfst/testing/consumer/TSConsumerMain.java:162-170 | a list naming one handler maps its path to its class when both are given, else gives an empty map |
| ConsumerMain.RequestHandlersWithoutList | src/test/java/com/mnxfst/testing/consumer/TestTSConsumerMain.java:41-45 | null for null properties, empty properties, and properties without the list key |
| ConsumerMain.RequestHandlersTestListOnly | src/test/java/com/mnxfst/testing/consumer/TestTSConsumerMain.java:47-48 | a listed name with neither class nor path gives an empty map |
| ConsumerMain.RequestHandlersTestClassOnly | src/test/java/com/mnxfst/testing/consumer/TestTSConsumerMain.java:50-51 | a listed name with a class but no path gives an empty map |
| ConsumerMain.RequestHandlersTestComplete | src/test/java/com/mnxfst/testing/consumer/TestTSConsumerMain.java:53-56 | with both given, `/testPath` maps to `test` |
| ConsumerMain.CommandLineOptions | src/main/java/com/mnxfst/testing/consumer/TSConsumerMain.java:185-193 | four options, each taking an extracted argument, with distinct names, short names and value-map names |
| ConsumerMain.OptionNamed | src/main/java/com/mnxfst/testing/consumer/TSConsumerMain.java:188-191 | the value-map names are port, threadPoolSize, hostname, cfgFileName; Long exactly for the first two |
| ConsumerMain.CommandLineOptionsRequired | src/main/java/com/mnxfst/testing/consumer/TSConsumerMain.java:190-191 | a successful parse always carries the host name and the configuration file name |
| ConsumerMain.CommandLineOptionsKinds | src/main/java/com/mnxfst/testing/consumer/TSConsumerMain.java:188-191 | a successful parse carries only the four value-map names, a number exactly under port and threadPoolSize |
| ConsumerMain.CommandLineOutcome | src/main/java/com/mnxfst/testing/consumer/TSConsumerMain.java:188-191 | the parse result once each option's extraction is known: host and file, plus the port when it yields one |
| ConsumerMain.TypicalCommandLine | src/main/java/com/mnxfst/testing/consumer/TSConsumerMain.java:188-191 | `-port n -hostname h -cfgFile f` parses to the number n and the two names |
| ConsumerMain.BlankPortParsesWithoutPort | src/main/java/com/mnxfst/testing/consumer/TSConsumerMain.java:188 | a blank port passes the required check and the result has no port |
| ConsumerMain.MissingPortRejected | src/main/java/com/mnxfst/testing/consumer/TSConsumerMain.java:188 | no port at all: the parse fails with the port's missing-value message |

## Left out

- XML DOM building and serialisation (`convertDocument`) are left out. The response is a tree of element tags and records. The text written for a failed conversion is not modelled.
- Netty I/O is left out: `sendResponse`, channel writes and close listeners, `exceptionCaught`, and the pipeline factory. A reply is the body plus the keep-alive flag.
- The executor services and the atomicity of the concurrent maps are left out. Handing a worker to the executor appends it to `pool`. The maps are sequential.
- Reflection is left out. `Class.forName` in the async `initialize` is a `loadable` set of class names. The instantiation and access messages always print the class as `class <name>`; for an interface, Java's `Class.toString` would print `interface <name>` instead. `newInstance` and the worker's `initialize`/`shutdown` are outcomes supplied by the oracle.
- UUID generation is left out. Fresh ids are supplied by the oracle and assumed distinct and unregistered.
- Statistics content is left out. The source has only a TODO there, so a record carries consumerId, id and type.
- The upstream handler's host name, port, pool size and additional properties are left out. They are only logged or passed to a worker's `initialize`, whose effect is an oracle outcome.
- The failure of document-builder and transformer setup in both constructors and in `initialize` is left out.
- `TSConsumerMain.main`, `execute` and `loadAdditionalConfigProperties` are left out (file I/O, socket bind, `System.exit`).
- The commons-cli parser is left out. `PosixParser.parse` is the `parsed` parameter: a lookup from option name to value, or the parser's error. `asCliOption` and `toString` of an option are left out.
- `printMessage` and `HelpFormatter` output are left out. The `Failure` text of `ParseOutcome` stands for the printed hint.
- Case folding and digits cover ASCII only: `equalsIgnoreCase` folds ASCII letters and `Long.valueOf` reads ASCII digits.
- AsyncContext.AsyncConsumerContextHandler.Initialize: the loop over the configuration runs on values in `ReadConfiguration`, and the results are stored afterwards. On a failed run the model states that types the configuration does not mention keep their class and that every option and type comes from the earlier state or the configuration, but not which entries were read before the failure, because that depends on the map's iteration order.
- UpstreamHandler.TSConsumerChannelUpstreamHandler.MessageReceived: for the control path it states the one-child document and the unknown-op-code error. The full outcome per operation is stated on `ControlRequest`, which it calls with the merged parameters.
- CommandLine.ExtractLongValue and CommandLine.ExtractStringValue: their own contracts state only the range and trimming. Their outcomes are stated by `ExtractLongThroughString` and `ExtractStringMeaning`, and their round trips by `ExtractLongRoundTrip` and `ExtractStringRoundTrip`.
