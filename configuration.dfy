/**
 * The configuration loader: four parameters fetched by name from the
 * parameter store, each kept JSON-decoded when it decodes and as the raw
 * string otherwise. The store is an oracle from parameter name to the value
 * it returns (None when `get_parameter` raises); the JSON decoder is a
 * partial function.
 */
module Configuration {
  import opened Wrappers
  import opened Json

  const BucketKey: string := "flowroute_messages_bucket"
  const NumberMapKey: string := "flowroute_number_map"
  const AccessKeyKey: string := "flowroute_access_key"
  const SecretKeyKey: string := "flowroute_secret_key"

  /** The parameters in the order the loader fetches them. */
  const ParameterNames: seq<string> := [BucketKey, NumberMapKey, AccessKeyKey, SecretKeyKey]

  /** A stored configuration value: the decoded document, or the raw string when it does not decode. */
  datatype ConfigValue = Decoded(json: Json) | Raw(text: string)

  type Config = map<string, ConfigValue>

  /** Decode as JSON; on failure keep the string itself. */
  function DecodeOrRaw(raw: string, parse: string -> Option<Json>): (v: ConfigValue)
    ensures v.Decoded? <==> parse(raw).Some?
    ensures v.Decoded? ==> parse(raw) == Some(v.json)
    ensures v.Raw? ==> v.text == raw
  {
    match parse(raw)
    case Some(j) => Decoded(j)
    case None => Raw(raw)
  }

  lemma NamesDistinct()
    ensures forall i, j :: 0 <= i < j < |ParameterNames| ==> ParameterNames[i] != ParameterNames[j]
  {
    assert BucketKey[10] == 'm' && NumberMapKey[10] == 'n' && AccessKeyKey[10] == 'a' && SecretKeyKey[10] == 's';
  }

  /**
   * What `parameter_value` holds after iteration `i`: the value of the latest
   * successful fetch among the first i+1 parameters, or None while it is
   * still unbound (every fetch so far failed).
   */
  function Carried(ssm: string -> Option<string>, i: nat): (r: Option<string>)
    requires i < |ParameterNames|
    ensures r.None? <==> forall j :: 0 <= j <= i ==> ssm(ParameterNames[j]).None?
    ensures ssm(ParameterNames[i]).Some? ==> r == ssm(ParameterNames[i])
  {
    match ssm(ParameterNames[i])
    case Some(v) => Some(v)
    case None => if i == 0 then None else Carried(ssm, i - 1)
  }

  /**
   * The dict `load_configuration` returns, or None when it raises: a failed
   * first fetch leaves `parameter_value` unbound, and the NameError raised
   * again inside the `except` branch escapes the loader. A later failed
   * fetch stores the value carried over from the previous parameter.
   */
  function LoadedConfig(ssm: string -> Option<string>, parse: string -> Option<Json>): (r: Option<Config>)
    ensures r.None? <==> ssm(BucketKey).None?
    ensures r.Some? ==> BucketKey in r.value && NumberMapKey in r.value && AccessKeyKey in r.value && SecretKeyKey in r.value
  {
    if ssm(BucketKey).None? then None
    else
      assert ParameterNames[0] == BucketKey;
      NamesDistinct();
      Some(map[BucketKey := DecodeOrRaw(Carried(ssm, 0).value, parse),
               NumberMapKey := DecodeOrRaw(Carried(ssm, 1).value, parse),
               AccessKeyKey := DecodeOrRaw(Carried(ssm, 2).value, parse),
               SecretKeyKey := DecodeOrRaw(Carried(ssm, 3).value, parse)])
  }

  /**
   * What the loader stores: the four parameters and nothing else; a fetched
   * value decoded when it decodes and raw otherwise; and after a failed
   * fetch (other than the first, which raises) the value stored for the
   * previous parameter.
   */
  lemma LoaderStores(ssm: string -> Option<string>, parse: string -> Option<Json>)
    ensures LoadedConfig(ssm, parse).None? <==> ssm(ParameterNames[0]).None?
    ensures LoadedConfig(ssm, parse).Some? ==>
      LoadedConfig(ssm, parse).value.Keys == {BucketKey, NumberMapKey, AccessKeyKey, SecretKeyKey}
    ensures LoadedConfig(ssm, parse).Some? ==> forall i :: 0 <= i < |ParameterNames| && ssm(ParameterNames[i]).Some? ==>
      LoadedConfig(ssm, parse).value[ParameterNames[i]] == DecodeOrRaw(ssm(ParameterNames[i]).value, parse)
    ensures LoadedConfig(ssm, parse).Some? ==> forall i :: 0 < i < |ParameterNames| && ssm(ParameterNames[i]).None? ==>
      LoadedConfig(ssm, parse).value[ParameterNames[i]] == LoadedConfig(ssm, parse).value[ParameterNames[i - 1]]
  {
    NamesDistinct();
    assert ParameterNames[0] == BucketKey && ParameterNames[1] == NumberMapKey;
    assert ParameterNames[2] == AccessKeyKey && ParameterNames[3] == SecretKeyKey;
  }

  /** The loop of `load_configuration`, filling the dict one parameter at a time. */
  method LoadConfiguration(ssm: string -> Option<string>, parse: string -> Option<Json>) returns (r: Option<Config>)
    ensures r == LoadedConfig(ssm, parse)
  {
    var config: Config := map[];
    var parameterValue: Option<string> := None;
    for i := 0 to |ParameterNames|
      invariant parameterValue == if i == 0 then None else Carried(ssm, i - 1)
      invariant i > 0 ==> parameterValue.Some? && ssm(BucketKey).Some?
      invariant i > 0 ==> config == Filled(ssm, parse, i)
      invariant i == 0 ==> config == map[]
    {
      var name := ParameterNames[i];
      var fetched := ssm(name);
      if fetched.Some? {
        parameterValue := fetched;
      }
      if parameterValue.None? {
        // json.loads(parameter_value) raises NameError, and so does the fallback store
        return None;
      }
      assert fetched.None? ==> i > 0 && Carried(ssm, i) == Carried(ssm, i - 1);
      assert parameterValue == Carried(ssm, i);
      config := config[name := DecodeOrRaw(parameterValue.value, parse)];
    }
    FilledIsLoaded(ssm, parse);
    r := Some(config);
  }

  /** The dict after the first n iterations, once the first fetch has succeeded. */
  function Filled(ssm: string -> Option<string>, parse: string -> Option<Json>, n: nat): Config
    requires 0 < n <= |ParameterNames| && ssm(BucketKey).Some?
  {
    assert ParameterNames[0] == BucketKey;
    var value := DecodeOrRaw(Carried(ssm, n - 1).value, parse);
    if n == 1 then map[ParameterNames[0] := value]
    else Filled(ssm, parse, n - 1)[ParameterNames[n - 1] := value]
  }

  lemma FilledIsLoaded(ssm: string -> Option<string>, parse: string -> Option<Json>)
    requires ssm(BucketKey).Some?
    ensures LoadedConfig(ssm, parse) == Some(Filled(ssm, parse, |ParameterNames|))
  {
    assert ParameterNames[0] == BucketKey && ParameterNames[1] == NumberMapKey;
    assert ParameterNames[2] == AccessKeyKey && ParameterNames[3] == SecretKeyKey;
  }

  /** The number map is a JSON object whose every value is a list of recipients. */
  predicate IsNumberMap(v: ConfigValue) {
    v.Decoded? && v.json.JObject? && forall k :: k in v.json.fields ==> v.json.fields[k].JArray?
  }

  /** The shape of the number map the handler relies on, whenever the loader returns. */
  predicate NumberMapShaped(ssm: string -> Option<string>, parse: string -> Option<Json>) {
    var c := LoadedConfig(ssm, parse);
    c.Some? ==> IsNumberMap(c.value[NumberMapKey])
  }
}
