/**
 * The entry point's configuration logic: the table of command-line options it parses,
 * and the extraction of the request-handler table (path to handler class) from the
 * properties of the configuration file.
 */
module ConsumerMain {

  import opened Common
  import opened JavaStrings
  import opened CommandLine

  // ---------------------------------------------------------------------------------------
  // Request handlers

  const RequestHandlersKey: string := "context.request.handlers"
  const RequestHandlerPrefix: string := "context.request.handler."
  const PathSuffix: string := ".path"

  /** Configuration properties; an absent key reads as `null`. */
  type Properties = map<string, string>

  /** A property that is present and not empty. */
  predicate Given(props: Properties, key: string)
  {
    key in props && props[key] != ""
  }

  function ClassKey(name: string): string
  {
    RequestHandlerPrefix + name
  }

  function PathKey(name: string): string
  {
    RequestHandlerPrefix + name + PathSuffix
  }

  /**
   * What one listed handler name contributes: its path mapped to its class when both are
   * given, and nothing (the name is skipped) otherwise.
   */
  function HandlerPut(props: Properties, name: string): Option<(string, string)>
  {
    if Given(props, ClassKey(name)) && Given(props, PathKey(name)) then
      Some((props[PathKey(name)], props[ClassKey(name)]))
    else None
  }

  /** The puts of a whole name list, in list order. */
  function HandlerPuts(props: Properties, names: seq<string>): (p: seq<Option<(string, string)>>)
    ensures |p| == |names|
    ensures forall i :: 0 <= i < |names| ==> p[i] == HandlerPut(props, names[i])
  {
    if names == [] then []
    else HandlerPuts(props, names[..|names| - 1]) + [HandlerPut(props, names[|names| - 1])]
  }

  /** The handler names the configuration lists, split at commas. */
  function HandlerNames(props: Properties): seq<string>
    requires Given(props, RequestHandlersKey)
  {
    SplitComma(props[RequestHandlersKey])
  }

  /**
   * What `extractRequestHandlers` returns: `null` (`None`) without properties, without a
   * non-empty handler list, or when the list splits into no names; otherwise the map the
   * puts of the listed names build.
   */
  function RequestHandlers(props: Option<Properties>): Option<map<string, string>>
  {
    if props.None? || !Given(props.value, RequestHandlersKey) then None
    else
      var names := HandlerNames(props.value);
      if names == [] then None
      else Some(PutAll(HandlerPuts(props.value, names)))
  }

  /** `extractRequestHandlers`: fills a fresh map walking the split names by index. */
  method ExtractRequestHandlers(props: Option<Properties>) returns (r: Option<map<string, string>>)
    ensures r == RequestHandlers(props)
  {
    if props.None? {
      return None;
    }
    var properties := props.value;
    if RequestHandlersKey !in properties || properties[RequestHandlersKey] == "" {
      return None;
    }
    var names := SplitComma(properties[RequestHandlersKey]);
    if names == [] {
      return None;
    }
    var handlers: map<string, string> := map[];
    var i := 0;
    while i < |names|
      invariant 0 <= i <= |names|
      invariant handlers == PutAll(HandlerPuts(properties, names[..i]))
    {
      var classKey := RequestHandlerPrefix + names[i];
      var pathKey := RequestHandlerPrefix + names[i] + PathSuffix;
      HandlersStep(properties, names, i);
      if classKey in properties && properties[classKey] != "" && pathKey in properties && properties[pathKey] != "" {
        handlers := handlers[properties[pathKey] := properties[classKey]];
      }
      i := i + 1;
    }
    assert names[..i] == names;
    return Some(handlers);
  }

  lemma HandlersStep(props: Properties, names: seq<string>, i: nat)
    requires i < |names|
    ensures var put := HandlerPut(props, names[i]);
            var before := PutAll(HandlerPuts(props, names[..i]));
            PutAll(HandlerPuts(props, names[..i + 1])) ==
              if put.Some? then before[put.value.0 := put.value.1] else before
  {
    assert names[..i + 1][..i] == names[..i];
    PutAllAppend(HandlerPuts(props, names[..i]), HandlerPut(props, names[i]));
  }

  /**
   * The result is `null` exactly when there are no properties, the handler list is absent
   * or empty, or it is made of commas alone.
   */
  lemma RequestHandlersNull(props: Option<Properties>)
    ensures RequestHandlers(props).None? <==>
              props.None? || !Given(props.value, RequestHandlersKey) ||
              forall i :: 0 <= i < |props.value[RequestHandlersKey]| ==> props.value[RequestHandlersKey][i] == ','
  {
    if props.Some? && Given(props.value, RequestHandlersKey) {
      SplitEmptyIffOnlyCommas(props.value[RequestHandlersKey]);
    }
  }

  /**
   * A non-null result maps a path exactly when some listed name gives both that path and
   * a class; the class under a path is that of the last such name in the list.
   */
  lemma RequestHandlersEntries(props: Properties)
    requires RequestHandlers(Some(props)).Some?
    ensures var names := HandlerNames(props);
            var handlers := RequestHandlers(Some(props)).value;
            && (forall path :: path in handlers <==>
                  exists i :: 0 <= i < |names| && Given(props, ClassKey(names[i])) &&
                    Given(props, PathKey(names[i])) && props[PathKey(names[i])] == path)
            && (forall i :: (0 <= i < |names| && Given(props, ClassKey(names[i])) && Given(props, PathKey(names[i])) &&
                  forall j :: i < j < |names| && Given(props, ClassKey(names[j])) && Given(props, PathKey(names[j])) ==>
                    props[PathKey(names[j])] != props[PathKey(names[i])]) ==>
                  handlers[props[PathKey(names[i])]] == props[ClassKey(names[i])])
  {
    var names := HandlerNames(props);
    var puts := HandlerPuts(props, names);
    PutAllKeys(puts);
    forall i | 0 <= i < |names| && Given(props, ClassKey(names[i])) && Given(props, PathKey(names[i])) &&
                (forall j :: i < j < |names| && Given(props, ClassKey(names[j])) && Given(props, PathKey(names[j])) ==>
                   props[PathKey(names[j])] != props[PathKey(names[i])])
      ensures PutAll(puts)[props[PathKey(names[i])]] == props[ClassKey(names[i])]
    {
      PutAllLastWins(puts, i);
    }
  }

  /** Two names sharing a path: the one listed later decides the class. */
  lemma LaterHandlerWins(props: Properties, a: string, b: string)
    requires RequestHandlersKey in props && props[RequestHandlersKey] == a + "," + b && ',' !in a && ',' !in b && a != [] && b != []
    requires Given(props, ClassKey(a)) && Given(props, PathKey(a))
    requires Given(props, ClassKey(b)) && Given(props, PathKey(b))
    requires props[PathKey(a)] == props[PathKey(b)]
    ensures RequestHandlers(Some(props)) == Some(map[props[PathKey(b)] := props[ClassKey(b)]])
  {
    SplitTwo(a, b);
    assert HandlerNames(props) == [a, b];
    var puts := HandlerPuts(props, [a, b]);
    assert [a, b][..1] == [a] && [a][..0] == [];
    assert puts == [] + [HandlerPut(props, a)] + [HandlerPut(props, b)];
    PutAllAppend([], HandlerPut(props, a));
    PutAllAppend([HandlerPut(props, a)], HandlerPut(props, b));
    assert [] + [HandlerPut(props, a)] == [HandlerPut(props, a)];
    var path := props[PathKey(b)];
    assert map[path := props[ClassKey(a)]][path := props[ClassKey(b)]] == map[path := props[ClassKey(b)]];
  }

  /** Two comma-free, non-empty names joined by a comma split back into the two names. */
  lemma SplitTwo(a: string, b: string)
    requires ',' !in a && ',' !in b && a != [] && b != []
    ensures SplitComma(a + "," + b) == [a, b]
  {
    var s := a + "," + b;
    assert s[|a|] == ',';
    assert [a, b][1..] == [b];
    assert Join([a, b]) == s;
    PiecesOfJoin([a, b]);
    SplitIsPiecesPrefix(s);
  }

  /** A handler list naming the single handler `test`. */
  lemma SingleHandlerListed(props: Properties)
    requires RequestHandlersKey in props && props[RequestHandlersKey] == "test"
    ensures RequestHandlers(Some(props)) ==
              Some(if Given(props, ClassKey("test")) && Given(props, PathKey("test"))
                   then map[props[PathKey("test")] := props[ClassKey("test")]] else map[])
  {
    assert ',' !in "test";
    assert HandlerNames(props) == ["test"];
    var puts := HandlerPuts(props, ["test"]);
    assert ["test"][..0] == [];
    assert puts == [] + [HandlerPut(props, "test")];
    PutAllAppend([], HandlerPut(props, "test"));
  }

  /** The entry point's own test, first half: no properties, or no handler list in them. */
  lemma RequestHandlersWithoutList()
    ensures RequestHandlers(None) == None
    ensures RequestHandlers(Some(map[])) == None
    ensures RequestHandlers(Some(map["context.request." := "test"])) == None
  {
    assert |"context.request."| != |RequestHandlersKey|;
  }

  /**
   * The entry point's own test, second half: the list names `test`; the result stays
   * empty while the class or the path of `test` is missing ...
   */
  lemma RequestHandlersTestListOnly()
    ensures RequestHandlers(Some(map["context.request." := "test",
                                     "context.request.handlers" := "test"])) == Some(map[])
  {
    var props := map["context.request." := "test", "context.request.handlers" := "test"];
    assert |ClassKey("test")| == 28;
    assert ClassKey("test") !in props;
    SingleHandlerListed(props);
  }

  lemma RequestHandlersTestClassOnly()
    ensures RequestHandlers(Some(map["context.request." := "test",
                                     "context.request.handlers" := "test",
                                     "context.request.handler.test" := "test"])) == Some(map[])
  {
    var props := map["context.request." := "test", "context.request.handlers" := "test",
                     "context.request.handler.test" := "test"];
    assert |PathKey("test")| == 33;
    assert PathKey("test") !in props;
    SingleHandlerListed(props);
  }

  /** ... and once both are given, maps the path to the class. */
  lemma RequestHandlersTestComplete()
    ensures RequestHandlers(Some(map["context.request." := "test",
                                     "context.request.handlers" := "test",
                                     "context.request.handler.test" := "test",
                                     "context.request.handler.test.path" := "/testPath"])) == Some(map["/testPath" := "test"])
  {
    assert ClassKey("test") == "context.request.handler.test";
    assert PathKey("test") == "context.request.handler.test.path";
    SingleHandlerListed(map["context.request." := "test", "context.request.handlers" := "test",
                            "context.request.handler.test" := "test", "context.request.handler.test.path" := "/testPath"]);
  }

  // ---------------------------------------------------------------------------------------
  // Command-line options

  const PortOption: CommandLineOption :=
    CommandLineOption("port", "p", true, true, LongValue, "Communication port for http server",
                      "port", "Missing value for required option 'port' (p)")
  const PoolSizeOption: CommandLineOption :=
    CommandLineOption("poolSize", "ps", false, true, LongValue,
                      "Sized used for setting up the server socket thread pool (optional)", "threadPoolSize", "")
  const HostnameOption: CommandLineOption :=
    CommandLineOption("hostname", "h", true, true, StringValue, "Name of the running host",
                      "hostname", "Missing value for required option 'hostname' (h)")
  const ConfigFileOption: CommandLineOption :=
    CommandLineOption("cfgFile", "cf", true, true, StringValue, "Name of property file containing configuration options",
                      "cfgFileName", "Missing value for required option 'cfgFile' (cf)")

  /**
   * `getCommandLineOptions`: port, pool size, host name and configuration file, in that
   * order; each takes an argument that is extracted (none has an ignored value class), and
   * no two share a name, a short name or a value-map name.
   */
  function CommandLineOptions(): (options: seq<CommandLineOption>)
    ensures |options| == 4
    ensures forall i :: 0 <= i < |options| ==> options[i].argumentProvided && options[i].valueClass != OtherValue
    ensures forall i, j :: 0 <= i < j < |options| ==>
              options[i].name != options[j].name && options[i].shortName != options[j].shortName &&
              options[i].valueMapName != options[j].valueMapName
  {
    [PortOption, PoolSizeOption, HostnameOption, ConfigFileOption]
  }

  /** The value-map name and value class of each entry of the table. */
  lemma OptionNamed(i: nat)
    requires i < 4
    ensures var k := CommandLineOptions()[i].valueMapName;
            k == "port" || k == "threadPoolSize" || k == "hostname" || k == "cfgFileName"
    ensures CommandLineOptions()[i].valueClass == LongValue <==>
              CommandLineOptions()[i].valueMapName == "port" || CommandLineOptions()[i].valueMapName == "threadPoolSize"
  {
  }

  /** With every option extracting, the outcome is the map the puts build. */
  lemma ParseAllExtracted(options: seq<CommandLineOption>, cmd: Lookup)
    requires options != [] && ExtractsAll(cmd, options, |options|)
    ensures ParseOutcome(options, Success(cmd)) == Success(PutAll(Puts(cmd, options)))
  {
    FirstFailureAt(cmd, options, |options|);
  }

  /**
   * A successful parse of the entry point's options always carries the host name and the
   * configuration file name.
   */
  lemma CommandLineOptionsRequired(parsed: Result<Lookup, string>)
    requires ParseOutcome(CommandLineOptions(), parsed).Success?
    ensures "hostname" in ParseOutcome(CommandLineOptions(), parsed).value
    ensures "cfgFileName" in ParseOutcome(CommandLineOptions(), parsed).value
  {
    RequiredStringPresent(CommandLineOptions(), parsed, 2);
    RequiredStringPresent(CommandLineOptions(), parsed, 3);
  }

  /**
   * A successful parse of the entry point's options carries nothing but the four
   * value-map names, and holds a number exactly under the port and the pool size.
   */
  lemma CommandLineOptionsKinds(parsed: Result<Lookup, string>)
    requires ParseOutcome(CommandLineOptions(), parsed).Success?
    ensures var values := ParseOutcome(CommandLineOptions(), parsed).value;
            forall k :: k in values ==>
              (k == "port" || k == "threadPoolSize" || k == "hostname" || k == "cfgFileName") &&
              (values[k].LongVal? <==> k == "port" || k == "threadPoolSize")
  {
    forall k | k in ParseOutcome(CommandLineOptions(), parsed).value
      ensures k == "port" || k == "threadPoolSize" || k == "hostname" || k == "cfgFileName"
      ensures ParseOutcome(CommandLineOptions(), parsed).value[k].LongVal? <==> k == "port" || k == "threadPoolSize"
    {
      var i := ParsedEntryOrigin(CommandLineOptions(), parsed, k);
      OptionNamed(i);
    }
  }

  /**
   * The outcome of parsing the entry point's options once each option's extraction is
   * known: the host name and configuration file, plus the port when it yields one (no
   * pool size given).
   */
  lemma CommandLineOutcome(cmd: Lookup, port: Option<Value>, host: string, file: string)
    requires ExtractOption(cmd, PortOption) == Success(port)
    requires ExtractOption(cmd, PoolSizeOption) == Success(None)
    requires ExtractOption(cmd, HostnameOption) == Success(Some(StringVal(host)))
    requires ExtractOption(cmd, ConfigFileOption) == Success(Some(StringVal(file)))
    ensures ParseOutcome(CommandLineOptions(), Success(cmd)) ==
              Success((if port.Some? then map["port" := port.value] else map[])
                      ["hostname" := StringVal(host)]["cfgFileName" := StringVal(file)])
  {
    var options := CommandLineOptions();
    assert options[0] == PortOption && options[1] == PoolSizeOption && options[2] == HostnameOption && options[3] == ConfigFileOption;
    ExtractsFour(cmd, options);
    OutcomeOfFour(cmd, options);
    PutOf(cmd, PortOption, port);
    PutOf(cmd, PoolSizeOption, None);
    PutOf(cmd, HostnameOption, Some(StringVal(host)));
    PutOf(cmd, ConfigFileOption, Some(StringVal(file)));
    PutAllOfThree(OptionPut(cmd, PortOption), OptionPut(cmd, HostnameOption), OptionPut(cmd, ConfigFileOption));
  }

  lemma ExtractsFour(cmd: Lookup, options: seq<CommandLineOption>)
    requires |options| == 4
    requires ExtractOption(cmd, options[0]).Success? && ExtractOption(cmd, options[1]).Success?
    requires ExtractOption(cmd, options[2]).Success? && ExtractOption(cmd, options[3]).Success?
    ensures ExtractsAll(cmd, options, 4)
  {
  }

  lemma OutcomeOfFour(cmd: Lookup, options: seq<CommandLineOption>)
    requires |options| == 4 && ExtractsAll(cmd, options, 4)
    ensures ParseOutcome(options, Success(cmd)) ==
              Success(PutAll([OptionPut(cmd, options[0]), OptionPut(cmd, options[1]),
                              OptionPut(cmd, options[2]), OptionPut(cmd, options[3])]))
  {
    ParseAllExtracted(options, cmd);
    var puts := Puts(cmd, options);
    PutsPointwise(cmd, options);
    assert puts == [puts[0], puts[1], puts[2], puts[3]];
  }

  lemma PutOf(cmd: Lookup, o: CommandLineOption, v: Option<Value>)
    requires ExtractOption(cmd, o) == Success(v)
    ensures OptionPut(cmd, o) == if v.Some? then Some((o.valueMapName, v.value)) else None
  {
  }

  lemma PutAllOfThree(p0: Option<(string, Value)>, p2: Option<(string, Value)>, p3: Option<(string, Value)>)
    ensures PutAll([p0, None, p2, p3]) ==
              (if p0.Some? then map[p0.value.0 := p0.value.1] else map[])
              [p2.value.0 := p2.value.1][p3.value.0 := p3.value.1]
    requires p2.Some? && p3.Some?
  {
    PutAllAppend([], p0);
    assert [] + [p0] == [p0];
    PutAllAppend([p0], None);
    assert [p0] + [None] == [p0, None];
    PutAllAppend([p0, None], p2);
    assert [p0, None] + [p2] == [p0, None, p2];
    PutAllAppend([p0, None, p2], p3);
    assert [p0, None, p2] + [p3] == [p0, None, p2, p3];
  }

  /**
   * A typical invocation, `-port <n> -hostname <host> -cfgFile <file>` without a pool
   * size, gives the port as a number and the two names as they were written.
   */
  lemma TypicalCommandLine(cmd: Lookup, n: int, host: string, file: string)
    requires LongMin <= n <= LongMax
    requires host != [] && !IsTrimmable(host[0]) && !IsTrimmable(host[|host| - 1])
    requires file != [] && !IsTrimmable(file[0]) && !IsTrimmable(file[|file| - 1])
    requires "port" in cmd && cmd["port"] == LongToString(n)
    requires "poolSize" !in cmd && "ps" !in cmd
    requires "hostname" in cmd && cmd["hostname"] == host
    requires "cfgFile" in cmd && cmd["cfgFile"] == file
    ensures ParseOutcome(CommandLineOptions(), Success(cmd))
            == Success(map["port" := LongVal(n), "hostname" := StringVal(host), "cfgFileName" := StringVal(file)])
  {
    PortGiven(cmd, n);
    PoolSizeAbsent(cmd);
    StringGiven(cmd, HostnameOption, host);
    StringGiven(cmd, ConfigFileOption, file);
    CommandLineOutcome(cmd, Some(LongVal(n)), host, file);
  }

  /**
   * Only a blank given for the port: the required check lets it through, no number is
   * read, and the parse succeeds without a port.
   */
  lemma BlankPortParsesWithoutPort(cmd: Lookup, host: string, file: string)
    requires host != [] && !IsTrimmable(host[0]) && !IsTrimmable(host[|host| - 1])
    requires file != [] && !IsTrimmable(file[0]) && !IsTrimmable(file[|file| - 1])
    requires "port" in cmd && cmd["port"] == " "
    requires "poolSize" !in cmd && "ps" !in cmd
    requires "hostname" in cmd && cmd["hostname"] == host
    requires "cfgFile" in cmd && cmd["cfgFile"] == file
    ensures ParseOutcome(CommandLineOptions(), Success(cmd))
            == Success(map["hostname" := StringVal(host), "cfgFileName" := StringVal(file)])
  {
    PortBlank(cmd);
    PoolSizeAbsent(cmd);
    StringGiven(cmd, HostnameOption, host);
    StringGiven(cmd, ConfigFileOption, file);
    CommandLineOutcome(cmd, None, host, file);
  }

  lemma PortGiven(cmd: Lookup, n: int)
    requires LongMin <= n <= LongMax
    requires "port" in cmd && cmd["port"] == LongToString(n)
    ensures ExtractOption(cmd, PortOption) == Success(Some(LongVal(n)))
  {
    ExtractLongRoundTrip(cmd, "port", "p", true, n);
  }

  lemma PortBlank(cmd: Lookup)
    requires "port" in cmd && cmd["port"] == " "
    ensures ExtractOption(cmd, PortOption) == Success(None)
  {
    assert RawValue(cmd, "port", "p") == Some(" ");
    assert IsBlank(" ");
  }

  lemma PoolSizeAbsent(cmd: Lookup)
    requires "poolSize" !in cmd && "ps" !in cmd
    ensures ExtractOption(cmd, PoolSizeOption) == Success(None)
  {
  }

  lemma StringGiven(cmd: Lookup, o: CommandLineOption, s: string)
    requires o.valueClass == StringValue && o.name in cmd && cmd[o.name] == s
    requires s != [] && !IsTrimmable(s[0]) && !IsTrimmable(s[|s| - 1])
    ensures ExtractOption(cmd, o) == Success(Some(StringVal(s)))
  {
    ExtractStringRoundTrip(cmd, o.name, o.shortName, o.required, s);
  }

  /** No port at all: the parse fails with the port's missing-value message. */
  lemma MissingPortRejected(cmd: Lookup)
    requires "port" !in cmd && "p" !in cmd
    ensures ParseOutcome(CommandLineOptions(), Success(cmd)) == Failure(PortOption.missingValueMessage)
  {
    FirstFailureAt(cmd, CommandLineOptions(), 0);
  }
}
