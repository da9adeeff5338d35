/**
 * The command-line processor: a list of option descriptions and a parsed command line
 * become the map of typed values the program starts from, or nothing at all.
 *
 * The parsed command line is what the POSIX-style parser hands back; here it is a lookup
 * from option name (long or short) to the value given for it, an absent name being a
 * `null` value.
 */
module CommandLine {

  import opened Common
  import opened JavaStrings

  /** The Java class the value of an option is converted to. */
  datatype ValueClass = LongValue | StringValue | OtherValue

  /**
   * One option description. A `null` missing-value message is the empty string: the
   * message is printed only when it is neither `null` nor empty.
   */
  datatype CommandLineOption = CommandLineOption(
    name: string,
    shortName: string,
    required: bool,
    argumentProvided: bool,
    valueClass: ValueClass,
    description: string,
    valueMapName: string,
    missingValueMessage: string)

  /** A value stored in the result map. */
  datatype Value = LongVal(n: int) | StringVal(s: string)

  /** The parsed command line: option name to given value. */
  type Lookup = map<string, string>

  const OptionsMissingMessage: string := "Command-line options missing"

  function ParseFailedMessage(reason: string): string
  {
    "Failed to parse command-line. Error: " + reason
  }

  function MissingRequiredMessage(opt: string, shortOpt: string): string
  {
    "Missing value for required option '" + opt + "' ('" + shortOpt + "')"
  }

  function NotNumericMessage(opt: string, shortOpt: string, value: string): string
  {
    "Value for required option '" + opt + "' ('" + shortOpt + "') does not represent a valid numerical value: " + value
  }

  /** An absent or empty value, the test both extractors use for "nothing given". */
  predicate Unset(v: Option<string>)
  {
    v.None? || v.value == ""
  }

  /**
   * The value the extractors look at: the one given under the long name, or, when that is
   * absent or empty, whatever is given under the short name.
   */
  function RawValue(cmd: Lookup, opt: string, shortOpt: string): Option<string>
  {
    if opt in cmd && cmd[opt] != "" then Some(cmd[opt])
    else if shortOpt in cmd then Some(cmd[shortOpt])
    else None
  }

  /**
   * `extractLongValue`: a required option with nothing given fails; a non-blank value is
   * trimmed and parsed as a Java `long`, failing when it is not one; anything else
   * (nothing given to an optional option, or only blanks) yields no value.
   */
  function ExtractLongValue(cmd: Lookup, opt: string, shortOpt: string, required: bool): (r: Result<Option<int>, string>)
    ensures r.Success? && r.value.Some? ==> LongMin <= r.value.value <= LongMax
  {
    var v := RawValue(cmd, opt, shortOpt);
    if required && Unset(v) then Failure(MissingRequiredMessage(opt, shortOpt))
    else if v.Some? && Trim(v.value) != "" then
      match ParseLong(Trim(v.value))
      case Some(n) => Success(Some(n))
      case None => Failure(NotNumericMessage(opt, shortOpt, v.value))
    else Success(None)
  }

  /**
   * `extractStringValue`: a required option with nothing given fails; otherwise the value
   * given, trimmed, or no value when none is given.
   */
  function ExtractStringValue(cmd: Lookup, opt: string, shortOpt: string, required: bool): (r: Result<Option<string>, string>)
    ensures r.Success? && r.value.Some? ==> Trim(r.value.value) == r.value.value
  {
    var v := RawValue(cmd, opt, shortOpt);
    if required && Unset(v) then Failure(MissingRequiredMessage(opt, shortOpt))
    else
      if v.Some? then TrimIdempotent(v.value); Success(Some(Trim(v.value)))
      else Success(None)
  }

  /**
   * `extractLongValue` is `extractStringValue` followed by `Long.valueOf`: both fail alike
   * on nothing given to a required option; a non-empty extracted string is the number it
   * spells, or fails naming the value as given; an empty or absent one is no number.
   */
  lemma ExtractLongThroughString(cmd: Lookup, opt: string, shortOpt: string, required: bool)
    ensures var l := ExtractLongValue(cmd, opt, shortOpt, required);
            var s := ExtractStringValue(cmd, opt, shortOpt, required);
            && (s.Failure? ==> l == Failure(s.error))
            && (s.Success? && s.value.Some? && s.value.value != "" ==>
                  (ParseLong(s.value.value).Some? ==> l == Success(ParseLong(s.value.value))) &&
                  (ParseLong(s.value.value).None? ==>
                     l == Failure(NotNumericMessage(opt, shortOpt, RawValue(cmd, opt, shortOpt).value))))
            && (s.Success? && (s.value.None? || s.value.value == "") ==> l == Success(None))
  {
  }

  /**
   * What `extractStringValue` promises: it fails exactly on nothing given to a required
   * option; it yields nothing exactly when nothing is given; and what it yields is the
   * value given with blanks, and only blanks, removed from both ends (`before` and `after`).
   */
  lemma ExtractStringMeaning(cmd: Lookup, opt: string, shortOpt: string, required: bool)
    returns (before: string, after: string)
    ensures var v := RawValue(cmd, opt, shortOpt);
            var r := ExtractStringValue(cmd, opt, shortOpt, required);
            && (r.Failure? <==> required && Unset(v))
            && (r.Failure? ==> r.error == MissingRequiredMessage(opt, shortOpt))
            && (r.Success? ==> (r.value.None? <==> v.None?))
            && (r.Success? && r.value.Some? ==>
                  var t := r.value.value;
                  v.value == before + t + after && IsBlank(before) && IsBlank(after) &&
                  (t == [] || (!IsTrimmable(t[0]) && !IsTrimmable(t[|t| - 1]))))
  {
    before, after := "", "";
    var v := RawValue(cmd, opt, shortOpt);
    if v.Some? {
      before, after := TrimRemovesBlanks(v.value);
    }
  }

  /** What one option yields: an extraction failure, nothing to store, or a value to store. */
  function ExtractOption(cmd: Lookup, o: CommandLineOption): Result<Option<Value>, string>
  {
    match o.valueClass
    case LongValue =>
      (match ExtractLongValue(cmd, o.name, o.shortName, o.required)
       case Failure(e) => Failure(e)
       case Success(v) => Success(if v.Some? then Some(LongVal(v.value)) else None))
    case StringValue =>
      (match ExtractStringValue(cmd, o.name, o.shortName, o.required)
       case Failure(e) => Failure(e)
       case Success(v) => Success(if v.Some? then Some(StringVal(v.value)) else None))
    case OtherValue => Success(None)
  }

  /** The `put` one successfully extracted option makes into the result map, if any. */
  function OptionPut(cmd: Lookup, o: CommandLineOption): Option<(string, Value)>
  {
    match ExtractOption(cmd, o)
    case Success(Some(v)) => Some((o.valueMapName, v))
    case _ => None
  }

  /** The puts of a whole option list, in list order. */
  function Puts(cmd: Lookup, options: seq<CommandLineOption>): (p: seq<Option<(string, Value)>>)
    ensures |p| == |options|
  {
    if options == [] then []
    else Puts(cmd, options[..|options| - 1]) + [OptionPut(cmd, options[|options| - 1])]
  }

  /** The put at each position is the one its option makes. */
  lemma {:induction false} PutsPointwise(cmd: Lookup, options: seq<CommandLineOption>)
    ensures forall i :: 0 <= i < |options| ==> Puts(cmd, options)[i] == OptionPut(cmd, options[i])
  {
    if options != [] {
      var n := |options| - 1;
      var init := options[..n];
      PutsPointwise(cmd, init);
      PutsLast(cmd, options, Puts(cmd, init));
    }
  }

  /** The puts of a list are those of all but its last option, then the last option's. */
  lemma PutsLast(cmd: Lookup, options: seq<CommandLineOption>, initPuts: seq<Option<(string, Value)>>)
    requires options != [] && initPuts == Puts(cmd, options[..|options| - 1])
    requires forall i :: 0 <= i < |options| - 1 ==> initPuts[i] == OptionPut(cmd, options[..|options| - 1][i])
    ensures forall i :: 0 <= i < |options| ==> Puts(cmd, options)[i] == OptionPut(cmd, options[i])
  {
    var p := Puts(cmd, options);
    assert p == initPuts + [OptionPut(cmd, options[|options| - 1])];
    assert forall i :: 0 <= i < |options| - 1 ==> options[..|options| - 1][i] == options[i];
  }

  /** The index of the first option whose extraction fails, or the list's length if none does. */
  function FirstFailure(cmd: Lookup, options: seq<CommandLineOption>): (i: nat)
    ensures i <= |options|
    ensures forall j :: 0 <= j < i ==> ExtractOption(cmd, options[j]).Success?
    ensures i < |options| ==> ExtractOption(cmd, options[i]).Failure?
  {
    if options == [] then 0
    else if ExtractOption(cmd, options[0]).Failure? then 0
    else 1 + FirstFailure(cmd, options[1..])
  }

  /**
   * What `parseCommandLine` comes to. A `Failure` is a `null` result; its text is the hint
   * printed beside the help text.
   */
  function ParseOutcome(options: seq<CommandLineOption>, parsed: Result<Lookup, string>): Result<map<string, Value>, string>
  {
    if options == [] then Failure(OptionsMissingMessage)
    else if parsed.Failure? then Failure(ParseFailedMessage(parsed.error))
    else
      var i := FirstFailure(parsed.value, options);
      if i < |options| then Failure(options[i].missingValueMessage)
      else Success(PutAll(Puts(parsed.value, options)))
  }

  /**
   * `parseCommandLine`. A missing option list, a command line the parser rejects, or any
   * option whose value cannot be extracted makes the whole result `null`, never a partial
   * map; otherwise every option contributes its extracted value, if it has one, under its
   * value-map name.
   */
  method ParseCommandLine(options: seq<CommandLineOption>, parsed: Result<Lookup, string>)
    returns (r: Result<map<string, Value>, string>)
    ensures r == ParseOutcome(options, parsed)
  {
    if options == [] {
      return Failure(OptionsMissingMessage);
    }
    if parsed.Failure? {
      return Failure(ParseFailedMessage(parsed.error));
    }
    var cmd := parsed.value;
    var values: map<string, Value> := map[];
    var i := 0;
    while i < |options|
      invariant 0 <= i <= |options|
      invariant ExtractsAll(cmd, options, i)
      invariant values == PutAll(Puts(cmd, options[..i]))
    {
      var o := options[i];
      var extracted := ExtractOption(cmd, o);
      if extracted.Failure? {
        FirstFailureAt(cmd, options, i);
        return Failure(o.missingValueMessage);
      }
      ExtractsOneMore(cmd, options, i);
      assert options[..i + 1][..i] == options[..i];
      PutAllAppend(Puts(cmd, options[..i]), OptionPut(cmd, o));
      if extracted.value.Some? {
        values := values[o.valueMapName := extracted.value.value];
      }
      i := i + 1;
    }
    assert options[..i] == options;
    FirstFailureAt(cmd, options, i);
    r := Success(values);
  }

  /** Every one of the first `n` options extracts without failure. */
  ghost predicate ExtractsAll(cmd: Lookup, options: seq<CommandLineOption>, n: nat)
  {
    n <= |options| && forall j :: 0 <= j < n ==> ExtractOption(cmd, options[j]).Success?
  }

  lemma ExtractsOneMore(cmd: Lookup, options: seq<CommandLineOption>, n: nat)
    requires ExtractsAll(cmd, options, n) && n < |options|
    requires ExtractOption(cmd, options[n]).Success?
    ensures ExtractsAll(cmd, options, n + 1)
  {
  }

  /** The first failing option is the one before which every option succeeds. */
  lemma FirstFailureAt(cmd: Lookup, options: seq<CommandLineOption>, i: nat)
    requires ExtractsAll(cmd, options, i)
    requires i < |options| ==> ExtractOption(cmd, options[i]).Failure?
    ensures FirstFailure(cmd, options) == i
  {
  }

  // ---------------------------------------------------------------------------------------
  // What the outcome promises

  /** The parse fails exactly when the list is empty, the parser rejects, or an option fails. */
  lemma ParseFailsWholly(options: seq<CommandLineOption>, parsed: Result<Lookup, string>)
    ensures ParseOutcome(options, parsed).Failure? <==>
              options == [] || parsed.Failure? ||
              exists i :: 0 <= i < |options| && ExtractOption(parsed.value, options[i]).Failure?
    ensures options != [] && parsed.Success? && ParseOutcome(options, parsed).Failure? ==>
              exists i :: 0 <= i < |options| && ExtractOption(parsed.value, options[i]).Failure? &&
                (forall j :: 0 <= j < i ==> ExtractOption(parsed.value, options[j]).Success?) &&
                ParseOutcome(options, parsed).error == options[i].missingValueMessage
  {
    if options != [] && parsed.Success? {
      var i := FirstFailure(parsed.value, options);
      if i == |options| {
        assert forall j :: 0 <= j < |options| ==> ExtractOption(parsed.value, options[j]).Success?;
      }
    }
  }

  /**
   * On success the result has an entry exactly under the value-map names of the options
   * that yield a value.
   */
  lemma ParsedKeys(options: seq<CommandLineOption>, parsed: Result<Lookup, string>)
    requires ParseOutcome(options, parsed).Success?
    ensures forall k :: k in ParseOutcome(options, parsed).value <==>
              exists i :: 0 <= i < |options| && ExtractOption(parsed.value, options[i]).value.Some? &&
                options[i].valueMapName == k
  {
    var cmd := parsed.value;
    var puts := Puts(cmd, options);
    PutsPointwise(cmd, options);
    PutAllKeys(puts);
    forall k ensures k in ParseOutcome(options, parsed).value <==>
              exists i :: 0 <= i < |options| && ExtractOption(cmd, options[i]).value.Some? &&
                options[i].valueMapName == k
    {
      if exists i :: 0 <= i < |options| && ExtractOption(cmd, options[i]).value.Some? && options[i].valueMapName == k {
        var i :| 0 <= i < |options| && ExtractOption(cmd, options[i]).value.Some? && options[i].valueMapName == k;
        assert puts[i].Some? && puts[i].value.0 == k;
      }
    }
  }

  /**
   * On success each entry holds the value of the last option that yields a value under
   * that name.
   */
  lemma ParsedLastWins(options: seq<CommandLineOption>, parsed: Result<Lookup, string>, i: nat)
    requires ParseOutcome(options, parsed).Success?
    requires i < |options| && ExtractOption(parsed.value, options[i]).value.Some?
    requires forall j :: i < j < |options| && ExtractOption(parsed.value, options[j]).value.Some? ==>
               options[j].valueMapName != options[i].valueMapName
    ensures var values := ParseOutcome(options, parsed).value;
      options[i].valueMapName in values &&
      values[options[i].valueMapName] == ExtractOption(parsed.value, options[i]).value.value
  {
    var puts := Puts(parsed.value, options);
    PutsPointwise(parsed.value, options);
    PutAllLastWins(puts, i);
  }

  /** A put stores under the option's value-map name, a number exactly for a Long option. */
  lemma OptionPutShape(cmd: Lookup, o: CommandLineOption)
    requires OptionPut(cmd, o).Some?
    ensures OptionPut(cmd, o).value.0 == o.valueMapName
    ensures OptionPut(cmd, o).value.1.LongVal? <==> o.valueClass == LongValue
  {
  }

  /**
   * Every entry of a successful result comes from an option with that value-map name,
   * and holds a number exactly when that option is a Long option.
   */
  lemma ParsedEntryOrigin(options: seq<CommandLineOption>, parsed: Result<Lookup, string>, k: string)
    returns (i: nat)
    requires ParseOutcome(options, parsed).Success? && k in ParseOutcome(options, parsed).value
    ensures i < |options| && options[i].valueMapName == k
    ensures ParseOutcome(options, parsed).value[k].LongVal? <==> options[i].valueClass == LongValue
  {
    var puts := Puts(parsed.value, options);
    var values := PutAll(puts);
    assert ParseOutcome(options, parsed).value == values;
    PutAllFrom(puts, k);
    i :| 0 <= i < |puts| && puts[i] == Some((k, values[k]));
    PutsPointwise(parsed.value, options);
    OptionPutShape(parsed.value, options[i]);
  }

  /** A required String option is always in a successful result. */
  lemma RequiredStringPresent(options: seq<CommandLineOption>, parsed: Result<Lookup, string>, i: nat)
    requires ParseOutcome(options, parsed).Success?
    requires i < |options| && options[i].required && options[i].valueClass == StringValue
    ensures options[i].valueMapName in ParseOutcome(options, parsed).value
  {
    ParsedKeys(options, parsed);
    assert ExtractOption(parsed.value, options[i]).value.Some?;
  }

  /** A value written as `Long.toString` writes it, under either name, extracts to itself. */
  lemma ExtractLongRoundTrip(cmd: Lookup, opt: string, shortOpt: string, required: bool, n: int)
    requires LongMin <= n <= LongMax
    requires RawValue(cmd, opt, shortOpt) == Some(LongToString(n))
    ensures ExtractLongValue(cmd, opt, shortOpt, required) == Success(Some(n))
  {
    var s := LongToString(n);
    LongToStringUntrimmed(n);
    TrimUntouched(s);
    ParseLongRoundTrip(n);
  }

  lemma LongToStringUntrimmed(n: int)
    ensures !IsTrimmable(LongToString(n)[0])
    ensures !IsTrimmable(LongToString(n)[|LongToString(n)| - 1])
  {
    var s := LongToString(n);
    var d := NatToString(if n < 0 then -n else n);
    assert s[|s| - 1] == d[|d| - 1];
    assert IsDigit(d[0]) && IsDigit(d[|d| - 1]);
  }

  /** A value without surrounding blanks extracts to itself. */
  lemma ExtractStringRoundTrip(cmd: Lookup, opt: string, shortOpt: string, required: bool, s: string)
    requires s != [] && !IsTrimmable(s[0]) && !IsTrimmable(s[|s| - 1])
    requires RawValue(cmd, opt, shortOpt) == Some(s)
    ensures ExtractStringValue(cmd, opt, shortOpt, required) == Success(Some(s))
  {
    TrimUntouched(s);
  }

  /**
   * The long name wins over the short one unless its value is empty; an empty long value
   * with no short value is no value at all.
   */
  lemma LongNameFirst(opt: string, shortOpt: string, a: string, b: string)
    requires opt != shortOpt
    ensures a != "" ==> RawValue(map[opt := a, shortOpt := b], opt, shortOpt) == Some(a)
    ensures RawValue(map[opt := "", shortOpt := b], opt, shortOpt) == Some(b)
    ensures RawValue(map[opt := ""], opt, shortOpt) == None
  {
  }

  /**
   * Only the empty string counts as missing for the required check: a required Long
   * option given only blanks passes it and then yields no value, so the result map lacks
   * its entry.
   */
  lemma RequiredBlankLongYieldsNothing(opt: string, shortOpt: string)
    ensures ExtractLongValue(map[opt := " "], opt, shortOpt, true) == Success(None)
    ensures ExtractLongValue(map[opt := ""], opt, shortOpt, true).Failure?
  {
    var v := RawValue(map[opt := " "], opt, shortOpt);
    assert v == Some(" ");
    assert IsBlank(" ");
  }
}
