/**
 * Decoded request parameters as both dispatchers see them, the choice of operation they
 * make from the parameter names, and the extraction of a parameter's values.
 */
module RequestParams {

  import opened Common
  import opened JavaStrings

  /** The values of one parameter in request order; `None` is a Java `null` entry. */
  type Values = seq<Option<string>>

  /** Decoded query (and, for POST, body) parameters: name to list of values. */
  type Params = map<string, Values>

  // Parameter names selecting the operation.
  const StartKey: string := "start"
  const StopKey: string := "stop"
  const StatsKey: string := "collectStats"

  datatype OpCode = StartConsumers | StopConsumers | CollectStats | NoOpCode

  /**
   * The operation a request asks for: the first of `start`, `stop`, `collectStats` whose
   * name is present, whatever the others say; none of them is an unknown op-code.
   */
  function SelectOpCode(params: Params): (op: OpCode)
    ensures op == StartConsumers <==> StartKey in params
    ensures op == StopConsumers <==> StartKey !in params && StopKey in params
    ensures op == CollectStats <==> StartKey !in params && StopKey !in params && StatsKey in params
    ensures op == NoOpCode <==> StartKey !in params && StopKey !in params && StatsKey !in params
  {
    if StartKey in params then StartConsumers
    else if StopKey in params then StopConsumers
    else if StatsKey in params then CollectStats
    else NoOpCode
  }

  /** How many values the request carries for `parameter` (none when it is absent). */
  function OperandCount(params: Params, parameter: string): nat
  {
    if parameter in params then |params[parameter]| else 0
  }

  /** A value as the dispatchers use it: trimmed, with a `null` entry read as "". */
  function TrimmedValue(v: Option<string>): string
  {
    if v.Some? then Trim(v.value) else ""
  }

  /** Every value of a list, trimmed. */
  function TrimAll(vs: Values): (r: seq<string>)
    ensures |r| == |vs|
    ensures forall i :: 0 <= i < |vs| ==> r[i] == TrimmedValue(vs[i])
  {
    if vs == [] then [] else TrimAll(vs[..|vs| - 1]) + [TrimmedValue(vs[|vs| - 1])]
  }

  function NoValuesMessage(parameter: string): string
  {
    "Parameter '" + parameter + "' references no values"
  }

  /** What `extractMultiParameterValues` yields: the trimmed values, or the no-values error. */
  function ExtractValues(parameter: string, params: Params): Result<seq<string>, string>
  {
    if parameter in params && params[parameter] != [] then
      Success(TrimAll(params[parameter]))
    else
      Failure(NoValuesMessage(parameter))
  }

  /**
   * `extractMultiParameterValues`: fails exactly when the parameter is absent or has no
   * values; otherwise yields one entry per value, in order, each trimmed, `null` as "".
   */
  method ExtractMultiParameterValues(parameter: string, params: Params)
    returns (r: Result<seq<string>, string>)
    ensures r == ExtractValues(parameter, params)
    ensures r.Failure? <==> OperandCount(params, parameter) == 0
    ensures r.Failure? ==> r.error == NoValuesMessage(parameter)
    ensures r.Success? ==>
              |r.value| == OperandCount(params, parameter) &&
              forall i :: 0 <= i < |r.value| ==>
                (params[parameter][i].None? ==> r.value[i] == "") &&
                (params[parameter][i].Some? ==> r.value[i] == Trim(params[parameter][i].value))
  {
    if parameter !in params || params[parameter] == [] {
      return Failure(NoValuesMessage(parameter));
    }
    var values := params[parameter];
    var result: seq<string> := [];
    var i := 0;
    while i < |values|
      invariant 0 <= i <= |values|
      invariant |result| == i
      invariant result == TrimAll(values[..i])
    {
      var v := values[i];
      assert values[..i + 1][..i] == values[..i];
      result := result + [if v.Some? then Trim(v.value) else ""];
      i := i + 1;
    }
    assert values[..i] == values;
    return Success(result);
  }

  /** Trimming makes the extracted values insensitive to surrounding blanks. */
  lemma ExtractedValuesAreTrimmed(parameter: string, params: Params)
    ensures ExtractValues(parameter, params).Success? ==>
              forall i :: 0 <= i < |ExtractValues(parameter, params).value| ==>
                Trim(ExtractValues(parameter, params).value[i]) == ExtractValues(parameter, params).value[i]
  {
    var r := ExtractValues(parameter, params);
    if r.Success? {
      forall i | 0 <= i < |r.value|
        ensures Trim(r.value[i]) == r.value[i]
      {
        var v := params[parameter][i];
        if v.Some? {
          TrimIdempotent(v.value);
        }
      }
    }
  }

  /** Requests the handler's own tests send that carry no usable values. */
  lemma ExtractValuesRejectsMissing()
    ensures ExtractValues("", map[]).Failure?
    ensures ExtractValues("startConsumer", map["startConsumer" := []]).Failure?
  {
  }

  /** Extracting a parameter that is present with a non-empty list trims that list. */
  lemma ExtractListed(parameter: string, vs: Values, r: seq<string>)
    requires vs != [] && TrimAll(vs) == r
    ensures ExtractValues(parameter, map[parameter := vs]) == Success(r)
  {
    var p: Params := map[parameter := vs];
    assert parameter in p && p[parameter] == vs;
  }

  lemma TrimAllOne()
    ensures TrimAll([Some("jmsConnector")]) == ["jmsConnector"]
  {
    TrimUntouched("jmsConnector");
  }

  lemma TrimAllTwo()
    ensures TrimAll([Some("jmsConnector"), Some("soapConnector")]) == ["jmsConnector", "soapConnector"]
  {
    var two: Values := [Some("jmsConnector"), Some("soapConnector")];
    assert two[..1] == [Some("jmsConnector")];
    assert TrimAll(two) == TrimAll([Some("jmsConnector")]) + [TrimmedValue(Some("soapConnector"))];
    TrimAllOne();
    SoapTrimmed();
  }

  lemma SoapTrimmed()
    ensures TrimmedValue(Some("soapConnector")) == "soapConnector"
  {
    TrimUntouched("soapConnector");
  }

  /**
   * The handler's own test: a single value, then a second one appended; the values come
   * back in the order they were sent.
   */
  lemma ExtractValuesExamples()
    ensures ExtractValues("startConsumer", map["startConsumer" := [Some("jmsConnector")]])
            == Success(["jmsConnector"])
    ensures ExtractValues("startConsumer", map["startConsumer" := [Some("jmsConnector"), Some("soapConnector")]])
            == Success(["jmsConnector", "soapConnector"])
  {
    TrimAllOne();
    TrimAllTwo();
    ExtractListed("startConsumer", [Some("jmsConnector")], ["jmsConnector"]);
    ExtractListed("startConsumer", [Some("jmsConnector"), Some("soapConnector")], ["jmsConnector", "soapConnector"]);
  }
}
