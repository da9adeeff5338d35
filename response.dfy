/**
 * The response document both dispatchers build, as a small tree instead of a DOM: a root
 * element whose children are operation elements (`startConsumers`, `shutdownConsumers`,
 * `statistics`) or the `errors` element, each holding a list of per-item records.
 */
module Response {

  import opened Common

  // Element names of the response document.
  const RootTag: string := "tsConsumerResponse"
  const StartTag: string := "startConsumers"
  const ShutdownTag: string := "shutdownConsumers"
  const StatsTag: string := "statistics"
  const ErrorsTag: string := "errors"

  // Error codes reported in the `errors` element.
  const NoConsumerTypesFound: int := 1
  const NoConsumerIdentifiersFound: int := 2
  const CollectingStatsFailed: int := 3
  const ConsumerStartFailed: int := 4
  const ConsumerStopFailed: int := 5
  const UnknownOpCode: int := 6

  // Per-consumer states reported by a shutdown request.
  const ShutdownSucceeded: int := 1
  const ShutdownUnknownId: int := 2
  const ShutdownFailed: int := 3

  /** One record below an operation element. */
  datatype Entry =
    | Started(id: string, kind: string)                          // <consumer><id/><type/></consumer>
    | Stopped(id: string, state: int)                            // <consumer><id/><state/></consumer>
    | StoppedWithMessage(id: string, state: int, msg: string)    // ... plus <msg/>
    | Stats(consumerId: string, id: string, kind: string)        // <consumerStats consumerId= id= type=/>
    | Error(code: int, msg: string)                              // <error><id/><msg/></error>

  datatype Element = Element(tag: string, entries: seq<Entry>)

  datatype Response = Response(root: string, children: seq<Element>)

  /** The `errors` element carrying a single error. */
  function ErrorsElement(code: int, msg: string): Element
  {
    Element(ErrorsTag, [Error(code, msg)])
  }

  /** Reads the code-to-message map back out of a list of error records. */
  function ErrorMap(entries: seq<Entry>): map<int, string>
  {
    if entries == [] then map[]
    else
      var last := entries[|entries| - 1];
      var m := ErrorMap(entries[..|entries| - 1]);
      if last.Error? then m[last.code := last.msg] else m
  }

  lemma ErrorMapAppend(entries: seq<Entry>, code: int, msg: string)
    ensures ErrorMap(entries + [Error(code, msg)]) == ErrorMap(entries)[code := msg]
  {
    var s := entries + [Error(code, msg)];
    assert s[..|s| - 1] == entries;
  }

  /**
   * `entries` holds one error record for each code of `done`, in some order, each with the
   * message `errors` gives it; read back, they are `errors` restricted to `done`.
   */
  ghost predicate RecordsErrors(entries: seq<Entry>, errors: map<int, string>, done: set<int>)
  {
    done <= errors.Keys &&
    |entries| == |done| &&
    (forall i :: 0 <= i < |entries| ==>
       entries[i].Error? && entries[i].code in done && entries[i].msg == errors[entries[i].code]) &&
    (forall i, j :: 0 <= i < j < |entries| ==> entries[i].code != entries[j].code) &&
    ErrorMap(entries) == map k | k in done :: errors[k]
  }

  /** Recording the error of one more code, taken from those still `remaining`. */
  lemma RecordsErrorsStep(entries: seq<Entry>, errors: map<int, string>, remaining: set<int>, code: int)
    requires remaining <= errors.Keys && code in remaining
    requires RecordsErrors(entries, errors, errors.Keys - remaining)
    ensures RecordsErrors(entries + [Error(code, errors[code])], errors, errors.Keys - (remaining - {code}))
  {
    var done := errors.Keys - remaining;
    assert errors.Keys - (remaining - {code}) == done + {code};
    ErrorMapAppend(entries, code, errors[code]);
    assert (map k | k in done + {code} :: errors[k]) == (map k | k in done :: errors[k])[code := errors[code]];
  }

  lemma RecordsAllErrors(entries: seq<Entry>, errors: map<int, string>)
    requires RecordsErrors(entries, errors, errors.Keys)
    ensures |entries| == |errors|
    ensures ErrorMap(entries) == errors
  {
    assert |errors| == |errors.Keys|;
    assert (map k | k in errors.Keys :: errors[k]) == errors;
  }

  /**
   * `createErrorElement`: one `error` record per entry of the code-to-message map, in the
   * map's (unspecified) key order; reading the records back gives the map again, and an
   * empty map gives an empty `errors` element.
   */
  method CreateErrorElement(errors: map<int, string>) returns (e: Element)
    ensures e.tag == ErrorsTag
    ensures |e.entries| == |errors|
    ensures forall i :: 0 <= i < |e.entries| ==>
              e.entries[i].Error? && e.entries[i].code in errors &&
              e.entries[i].msg == errors[e.entries[i].code]
    ensures forall i, j :: 0 <= i < j < |e.entries| ==> e.entries[i].code != e.entries[j].code
    ensures ErrorMap(e.entries) == errors
  {
    var entries: seq<Entry> := [];
    var remaining := errors.Keys;
    while remaining != {}
      invariant remaining <= errors.Keys
      invariant RecordsErrors(entries, errors, errors.Keys - remaining)
      decreases |remaining|
    {
      var code, rest := Take(remaining);
      RecordsErrorsStep(entries, errors, remaining, code);
      entries := entries + [Error(code, errors[code])];
      remaining := rest;
    }
    assert errors.Keys - remaining == errors.Keys;
    RecordsAllErrors(entries, errors);
    e := Element(ErrorsTag, entries);
  }

  /** An `errors` element that reads back as a single error is that error's element. */
  lemma SingleError(e: Element, code: int, msg: string)
    requires e.tag == ErrorsTag && |e.entries| == 1
    requires ErrorMap(e.entries) == map[code := msg]
    ensures e == ErrorsElement(code, msg)
  {
    var x := e.entries[0];
    assert e.entries[..0] == [];
    assert ErrorMap(e.entries) == if x.Error? then map[x.code := x.msg] else map[];
    assert code in ErrorMap(e.entries);
    assert e.entries == [x];
  }

  /**
   * The finished document: the operation's element, if there is one, then the `errors`
   * element, if there are errors.
   */
  method AssembleResponse(op: Option<Element>, errors: map<int, string>) returns (resp: Response)
    ensures resp.root == RootTag
    ensures |resp.children| == (if op.Some? then 1 else 0) + (if errors == map[] then 0 else 1)
    ensures op.Some? ==> resp.children[0] == op.value
    ensures errors != map[] ==>
              var e := resp.children[|resp.children| - 1];
              e.tag == ErrorsTag && |e.entries| == |errors| && ErrorMap(e.entries) == errors
  {
    var children := if op.Some? then [op.value] else [];
    if errors != map[] {
      var e := CreateErrorElement(errors);
      children := children + [e];
    }
    resp := Response(RootTag, children);
  }

  /**
   * What serving one operation comes to: the operation's element, or the single error
   * (code and message) that stopped it.
   */
  datatype Answer = Answered(element: Element) | Refused(code: int, msg: string)

  /** The one element below the root that an answer produces. */
  function AnswerElement(a: Answer): Element
  {
    match a
    case Answered(e) => e
    case Refused(code, msg) => ErrorsElement(code, msg)
  }

  /**
   * The tail of request processing: the operation's element is appended to the root, an
   * error goes into the code-to-message map, and a non-empty map becomes the `errors`
   * element. Exactly one element ends up below the root.
   */
  method Respond(a: Answer) returns (resp: Response)
    ensures resp.root == RootTag
    ensures resp.children == [AnswerElement(a)]
  {
    var op: Option<Element> := None;
    var errors: map<int, string> := map[];
    match a {
      case Answered(e) =>
        op := Some(e);
        resp := AssembleResponse(op, errors);
      case Refused(code, msg) =>
        errors := errors[code := msg];
        assert code in errors;
        resp := AssembleResponse(op, errors);
        SingleError(resp.children[0], code, msg);
    }
  }
}
