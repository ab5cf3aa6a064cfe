/**
 * The telemetry property builders of src/telemetry/extTelemetryUtils.ts:
 * the sample-task properties read from `KEY=VALUE` lines of an env file,
 * and the success/failure property maps of the Azure login and of the
 * creation of an Azure AI service. The property-name enumerations are not
 * part of this model: their entries are datatype constructors here, and the
 * own keys of the sample-task enumeration are a parameter.
 */
module TelemetryUtils {
  import opened Common
  import opened Text

  // ================================================================ sample-task properties

  /** What destructuring `line.split('=').map(trim)` into `[key, value]` yields; `value` is absent without a `=`. */
  datatype LinePair = LinePair(key: string, value: Option<string>)

  /** `line.split('=').map(trim)` destructured into its first two pieces. */
  function ParseLine(line: string): LinePair {
    var parts := Split(line, '=');
    LinePair(Trim(parts[0]), if |parts| >= 2 then Some(Trim(parts[1])) else None)
  }

  /** The key is the trimmed text before the first `=`; a value exists exactly when there is a `=`, and it is the trimmed text up to the next one. */
  lemma ParseLineFields(line: string)
    ensures ParseLine(line).key == Trim(line[..IndexOfChar(line, '=')])
    ensures ParseLine(line).value.Some? <==> IndexOfChar(line, '=') < |line|
    ensures ParseLine(line).value.Some? ==>
              var rest := line[IndexOfChar(line, '=') + 1..];
              ParseLine(line).value.value == Trim(rest[..IndexOfChar(rest, '=')])
  {
    SplitHead(line, '=');
    if IndexOfChar(line, '=') < |line| {
      SplitSecond(line, '=');
    } else {
      SplitWithoutSeparator(line, '=');
    }
  }

  /** A line is kept when key and value are both non-empty and the key passes the enumeration test. */
  predicate Accepted(p: LinePair, accept: string -> bool) {
    p.key != "" && Truthy(p.value) && accept(p.key)
  }

  /**
   * `properties[key] = value` on a plain object: the name `__proto__` hits
   * the prototype setter, which ignores a string, so no entry is made.
   */
  function ObjectSet(m: map<string, string>, key: string, value: string): map<string, string> {
    if key == "__proto__" then m else m[key := value]
  }

  /** One parsed line's effect on the dictionary. */
  function Step(m: map<string, string>, p: LinePair, accept: string -> bool): map<string, string> {
    if Accepted(p, accept) then ObjectSet(m, p.key, p.value.value) else m
  }

  /** The dictionary filled from the parsed lines, first to last. */
  function Fill(pairs: seq<LinePair>, accept: string -> bool): map<string, string>
  {
    if pairs == [] then map[]
    else Step(Fill(pairs[..|pairs| - 1], accept), pairs[|pairs| - 1], accept)
  }

  lemma FillSnoc(pairs: seq<LinePair>, p: LinePair, accept: string -> bool)
    ensures Fill(pairs + [p], accept) == Step(Fill(pairs, accept), p, accept)
  {
    assert (pairs + [p])[..|pairs|] == pairs;
  }

  /** Every line parsed, in order. */
  function ParseLines(lines: seq<string>): (pairs: seq<LinePair>)
    ensures |pairs| == |lines|
  {
    seq(|lines|, i requires 0 <= i < |lines| => ParseLine(lines[i]))
  }

  /** The properties collected from the lines. */
  function Collected(lines: seq<string>, accept: string -> bool): map<string, string> {
    Fill(ParseLines(lines), accept)
  }

  /** A single line is a single step from the empty dictionary. */
  lemma CollectedOneLine(line: string, accept: string -> bool)
    ensures Collected([line], accept) == Step(map[], ParseLine(line), accept)
  {
    var none: seq<string> := [];
    assert [line][..0] == none;
    assert ParseLines([line]) == [ParseLine(line)];
    FillSnoc([], ParseLine(line), accept);
    assert [] + [ParseLine(line)] == [ParseLine(line)];
  }

  /** Pair `i` is kept and carries `key`. */
  predicate KeptWithKey(pairs: seq<LinePair>, accept: string -> bool, i: int, key: string)
    requires 0 <= i < |pairs|
  {
    Accepted(pairs[i], accept) && pairs[i].key == key
  }

  /** A key is filled in exactly when some kept line carries it, the name `__proto__` aside. */
  lemma {:induction false} FillKeys(pairs: seq<LinePair>, accept: string -> bool, key: string)
    ensures key in Fill(pairs, accept) <==>
              key != "__proto__" && exists i :: 0 <= i < |pairs| && KeptWithKey(pairs, accept, i, key)
  {
    if pairs != [] {
      var n := |pairs| - 1;
      var init := pairs[..n];
      FillKeys(init, accept, key);
      forall i | 0 <= i < n
        ensures KeptWithKey(init, accept, i, key) == KeptWithKey(pairs, accept, i, key)
      {
        assert init[i] == pairs[i];
      }
      if KeptWithKey(pairs, accept, n, key) && key != "__proto__" {
        assert key in Fill(pairs, accept);
      }
    }
  }

  /** A filled-in key holds the value of the last kept line that carries it: a repeated key takes the later value. */
  lemma {:induction false} FillLastWins(pairs: seq<LinePair>, accept: string -> bool, key: string)
    requires key in Fill(pairs, accept)
    ensures exists i :: && 0 <= i < |pairs| && KeptWithKey(pairs, accept, i, key)
                        && Fill(pairs, accept)[key] == pairs[i].value.value
                        && forall j :: i < j < |pairs| ==> !KeptWithKey(pairs, accept, j, key)
  {
    var n := |pairs| - 1;
    var init := pairs[..n];
    FillKeys(pairs, accept, key);
    if KeptWithKey(pairs, accept, n, key) {
      assert Fill(pairs, accept)[key] == pairs[n].value.value;
    } else {
      assert key in Fill(init, accept) && Fill(pairs, accept)[key] == Fill(init, accept)[key];
      FillLastWins(init, accept, key);
      var i :| && 0 <= i < n && KeptWithKey(init, accept, i, key)
               && Fill(init, accept)[key] == init[i].value.value
               && forall j :: i < j < n ==> !KeptWithKey(init, accept, j, key);
      assert init[i] == pairs[i];
      forall j | i < j < n ensures !KeptWithKey(pairs, accept, j, key) {
        assert init[j] == pairs[j];
      }
    }
  }

  /** Every filled-in entry has a non-empty key that passed the test and a non-empty value. */
  lemma {:induction false} FillEntriesAccepted(pairs: seq<LinePair>, accept: string -> bool)
    ensures forall k :: k in Fill(pairs, accept) ==> k != "" && accept(k) && Fill(pairs, accept)[k] != ""
  {
    if pairs != [] {
      FillEntriesAccepted(pairs[..|pairs| - 1], accept);
    }
  }

  /** The names `key in obj` finds on every plain object, through `Object.prototype`. */
  const ObjectPrototypeNames: set<string> := {
    "constructor", "hasOwnProperty", "isPrototypeOf", "propertyIsEnumerable", "toLocaleString",
    "toString", "valueOf", "__defineGetter__", "__defineSetter__", "__lookupGetter__",
    "__lookupSetter__", "__proto__"
  }

  /** `key in SampleTaskTelemetryProperty`, as written: the enumeration's own keys and the inherited names. */
  function InEnumObject(ownKeys: set<string>): string -> bool {
    (key: string) => key in ownKeys || key in ObjectPrototypeNames
  }

  /** The test the lines are meant to pass: the key is one of the enumeration's own keys. */
  function IsOwnKey(ownKeys: set<string>): string -> bool {
    (key: string) => key in ownKeys
  }

  /** The properties the code as written collects from the file content. */
  function SampleTaskPropertiesAsWritten(content: string, ownKeys: set<string>): map<string, string> {
    Collected(Split(content, '\n'), InEnumObject(ownKeys))
  }

  /** The properties meant to be collected: only the enumeration's own keys. */
  function SampleTaskProperties(content: string, ownKeys: set<string>): (m: map<string, string>)
    ensures forall k :: k in m ==> k in ownKeys && k != "" && m[k] != ""
  {
    FillEntriesAccepted(ParseLines(Split(content, '\n')), IsOwnKey(ownKeys));
    Collected(Split(content, '\n'), IsOwnKey(ownKeys))
  }

  /** A piece of a `KEY=VALUE` line that survives the split and the trim unchanged. */
  predicate PlainPiece(s: string) {
    && s != [] && !IsJsWhitespace(s[0]) && !IsJsWhitespace(s[|s| - 1])
    && forall i :: 0 <= i < |s| ==> s[i] != '=' && s[i] != '\n'
  }

  /** The first `=` of `KEY=VALUE` is the one after the key. */
  lemma SeparatorAfterPlainKey(key: string, value: string)
    requires PlainPiece(key)
    ensures IndexOfChar(key + "=" + value, '=') == |key|
  {
    var line := key + "=" + value;
    var k := IndexOfChar(line, '=');
    assert line[|key|] == '=';
  }

  /** A line `KEY=VALUE` made of plain pieces parses back to those pieces. */
  lemma ParsePlainLine(key: string, value: string)
    requires PlainPiece(key) && PlainPiece(value)
    ensures ParseLine(key + "=" + value) == LinePair(key, Some(value))
  {
    var line := key + "=" + value;
    SeparatorAfterPlainKey(key, value);
    ParseLineFields(line);
    assert line[..|key|] == key;
    assert line[|key| + 1..] == value;
    assert IndexOfChar(value, '=') == |value|;
    assert value[..|value|] == value;
    TrimOfTrimmed(key);
    TrimOfTrimmed(value);
  }

  /**
   * A line whose key is a name every object inherits, say `toString=1`, is
   * collected as written, and not as intended.
   */
  lemma PrototypeNameAccepted(ownKeys: set<string>, key: string, value: string)
    requires key in ObjectPrototypeNames - ownKeys - {"__proto__"}
    requires PlainPiece(key) && PlainPiece(value)
    ensures key in SampleTaskPropertiesAsWritten(key + "=" + value, ownKeys)
    ensures SampleTaskPropertiesAsWritten(key + "=" + value, ownKeys)[key] == value
    ensures key !in SampleTaskProperties(key + "=" + value, ownKeys)
  {
    var line := key + "=" + value;
    assert forall i :: 0 <= i < |line| ==> line[i] != '\n';
    SplitWithoutSeparator(line, '\n');
    ParsePlainLine(key, value);
    CollectedOneLine(line, InEnumObject(ownKeys));
    CollectedOneLine(line, IsOwnKey(ownKeys));
  }

  /** The concrete instance: the file `toString=1`. */
  lemma ToStringLineAccepted(ownKeys: set<string>)
    requires "toString" !in ownKeys
    ensures "toString" in SampleTaskPropertiesAsWritten("toString" + "=" + "1", ownKeys)
    ensures "toString" !in SampleTaskProperties("toString" + "=" + "1", ownKeys)
  {
    PrototypeNameAccepted(ownKeys, "toString", "1");
  }

  /** `getSampleTaskTelemetryProperties` on the file content: the `\n`-separated lines fill the dictionary one by one. */
  method GetSampleTaskTelemetryProperties(content: string, ownKeys: set<string>) returns (properties: map<string, string>)
    ensures properties == SampleTaskProperties(content, ownKeys)
  {
    var lines := Split(content, '\n');
    properties := map[];
    ghost var pairs := ParseLines(lines);
    for i := 0 to |lines|
      invariant properties == Fill(pairs[..i], IsOwnKey(ownKeys))
    {
      var p := ParseLine(lines[i]);
      assert pairs[..i + 1] == pairs[..i] + [p];
      FillSnoc(pairs[..i], p, IsOwnKey(ownKeys));
      if p.key != "" && Truthy(p.value) && p.key in ownKeys {
        properties := ObjectSet(properties, p.key, p.value.value);
      }
    }
    assert pairs[..|lines|] == pairs;
  }

  // ================================================================ success and failure properties

  /** The `error` argument: `undefined`/`null`, or an object whose `message` may be missing. */
  datatype ErrorArg = Undefined | ErrorValue(message: Option<string>)

  /** Reading `message` of `undefined` throws a TypeError. */
  const ReadMessageOfUndefined := "TypeError: Cannot read properties of undefined (reading 'message')"

  /** `success.toString()`. */
  function BoolString(b: bool): (s: string)
    ensures s == "true" <==> b
    ensures s == "false" <==> !b
  {
    if b then "true" else "false"
  }

  /** `error.message ? error.message : "Unknown"`, or the TypeError when there is no error object. */
  function ErrorMessageOf(error: ErrorArg): (r: Result<string, string>)
    ensures r.Failure? <==> error.Undefined?
    ensures r.Success? ==> r.value != ""
    ensures r.Success? && Truthy(error.message) ==> r.value == error.message.value
  {
    match error
    case Undefined => Failure(ReadMessageOfUndefined)
    case ErrorValue(message) => Success(if Truthy(message) then message.value else "Unknown")
  }

  /** `AzureLoginTelemetryProperty`. */
  datatype LoginProperty = LoginSuccess | LoginErrorMessage

  /** `getAzureLoginProperties`: SUCCESS always, ERROR_MESSAGE exactly on failure. */
  method GetAzureLoginProperties(success: bool, error: ErrorArg) returns (r: Result<map<LoginProperty, string>, string>)
    ensures r.Failure? <==> !success && error.Undefined?
    ensures r.Success? ==> LoginSuccess in r.value && r.value[LoginSuccess] == BoolString(success)
    ensures r.Success? ==> (LoginErrorMessage in r.value <==> !success)
    ensures r.Success? && !success ==> r.value[LoginErrorMessage] == ErrorMessageOf(error).value
    ensures r.Success? ==> |r.value| == if success then 1 else 2
  {
    var properties := map[LoginSuccess := BoolString(success)];
    if !success {
      var message := ErrorMessageOf(error);
      if message.Failure? {
        return Failure(message.error);
      }
      properties := properties[LoginErrorMessage := message.value];
    }
    return Success(properties);
  }

  /** `CreateAzureAIServiceTelemetryProperty`. */
  datatype CreateServiceProperty =
    | CreateSuccess | AzureSubscriptionId | ResourceGroup | Region | Name | Sku | CreateErrorMessage

  /** The five resource fields a successful creation reports. */
  const ResourceFields: set<CreateServiceProperty> := {AzureSubscriptionId, ResourceGroup, Region, Name, Sku}

  /**
   * `getCreateAzureAISpeechServiceProperties`: on success SUCCESS and the five
   * resource fields (a missing argument reported as `""`), on failure SUCCESS
   * and ERROR_MESSAGE only.
   */
  method GetCreateAzureAISpeechServiceProperties(success: bool, error: ErrorArg,
                                                 azureSubscriptionId: Option<string>, resourceGroup: Option<string>,
                                                 region: Option<string>, name: Option<string>, sku: Option<string>)
    returns (r: Result<map<CreateServiceProperty, string>, string>)
    ensures r.Failure? <==> !success && error.Undefined?
    ensures r.Success? ==> r.value.Keys == (if success then {CreateSuccess} + ResourceFields else {CreateSuccess, CreateErrorMessage})
    ensures r.Success? ==> r.value[CreateSuccess] == BoolString(success)
    ensures r.Success? && success ==>
              && r.value[AzureSubscriptionId] == azureSubscriptionId.GetOr("")
              && r.value[ResourceGroup] == resourceGroup.GetOr("")
              && r.value[Region] == region.GetOr("")
              && r.value[Name] == name.GetOr("")
              && r.value[Sku] == sku.GetOr("")
    ensures r.Success? && !success ==> r.value[CreateErrorMessage] == ErrorMessageOf(error).value
  {
    var properties := map[CreateSuccess := BoolString(success)];
    if success {
      properties := properties[AzureSubscriptionId := azureSubscriptionId.GetOr("")];
      properties := properties[ResourceGroup := resourceGroup.GetOr("")];
      properties := properties[Region := region.GetOr("")];
      properties := properties[Name := name.GetOr("")];
      properties := properties[Sku := sku.GetOr("")];
    } else {
      var message := ErrorMessageOf(error);
      if message.Failure? {
        return Failure(message.error);
      }
      properties := properties[CreateErrorMessage := message.value];
    }
    return Success(properties);
  }
}
