/**
 * What the forwarding pipeline promises, stated over `HandlerSpec`, the
 * function `Handle` is proved to compute.
 */
module Properties {
  import opened Wrappers
  import opened Json
  import opened Configuration
  import opened MediaProxy
  import opened Sender
  import opened Handler

  /**
   * The response codes: 500 exactly when the loader raises (its first fetch
   * failed), 400 exactly when the envelope or the attributes cannot be
   * parsed, and every other response is 200/"OK". Only a 200 comes with
   * sends.
   */
  lemma StatusCodes(w: World, rt: Runtime, event: Json)
    requires NumberMapShaped(w.ssm, rt.parse)
    ensures HandlerSpec(w, rt, event).outcome == InternalServerError <==> w.ssm(BucketKey).None?
    ensures HandlerSpec(w, rt, event).outcome == BadRequest <==>
      w.ssm(BucketKey).Some? &&
      (ParseEnvelope(event, rt).None? ||
       ParseAttributes(ParseEnvelope(event, rt).value, MappedNumbers(w.ssm, rt.parse)).Malformed?)
    ensures HandlerSpec(w, rt, event).outcome.Returned? ==>
      HandlerSpec(w, rt, event).outcome in {InternalServerError, BadRequest, Ok}
    ensures HandlerSpec(w, rt, event).outcome != Ok ==> HandlerSpec(w, rt, event).requests == []
  {
  }

  /**
   * An unmapped receiving number is acknowledged with 200/"OK" and nothing
   * is sent. Only `is_mms` and `to` need to be present: `from` and `body`
   * are not read, so their absence does not turn this into a 400.
   */
  lemma UnmappedNumberIsAcknowledged(w: World, rt: Runtime, event: Json, body: Json)
    requires NumberMapShaped(w.ssm, rt.parse)
    requires w.ssm(BucketKey).Some?
    requires ParseEnvelope(event, rt) == Some(body)
    requires Attr(body, "is_mms").Some? && Attr(body, "to").Some? && Hashable(Attr(body, "to").value)
    requires !IsMapped(body, MappedNumbers(w.ssm, rt.parse))
    ensures HandlerSpec(w, rt, event) == Run(Ok, [])
  {
  }

  /**
   * The exceptions that escape the handler: a body that is neither None nor
   * a string, or, for an MMS, a missing `included`, or a non-empty one that
   * is not iterable or meets an S3 client that cannot be created. No request
   * is made before any of them.
   */
  lemma UncaughtExceptions(w: World, rt: Runtime, event: Json, config: Config, body: Json,
                           isMms: Json, to: string, from: Json, text: Json)
    requires NumberMapShaped(w.ssm, rt.parse)
    requires LoadedConfig(w.ssm, rt.parse) == Some(config)
    requires ParseEnvelope(event, rt) == Some(body)
    requires ParseAttributes(body, config[NumberMapKey].json.fields.Keys) == Mapped(isMms, to, from, text)
    ensures HandlerSpec(w, rt, event).outcome == Raised <==>
      (!text.JNull? && !text.JString?) ||
      (Truthy(isMms) && (Field(body, "included").None? ||
        (Truthy(Field(body, "included").value) &&
         (w.s3ClientRaises || MediaObjects(Field(body, "included").value).None?))))
    ensures HandlerSpec(w, rt, event).outcome == Raised ==> HandlerSpec(w, rt, event).requests == []
  {
  }

  /**
   * A mapped number that is forwarded: one request per recipient in the
   * number map's order, the k-th addressed to recipient k; every request
   * carries the same message apart from `to`, sent from the number that
   * received it, with `is_mms` copied and the forwarded text as its body;
   * `media_urls` is present exactly for an MMS with a non-empty `included`
   * and then holds the proxied URLs, possibly none; and every request is
   * authenticated with the two credential parameters.
   */
  lemma ForwardedRequests(w: World, rt: Runtime, event: Json, config: Config, body: Json,
                          isMms: Json, to: string, from: Json, text: Json)
    requires NumberMapShaped(w.ssm, rt.parse)
    requires LoadedConfig(w.ssm, rt.parse) == Some(config)
    requires ParseEnvelope(event, rt) == Some(body)
    requires ParseAttributes(body, config[NumberMapKey].json.fields.Keys) == Mapped(isMms, to, from, text)
    requires HandlerSpec(w, rt, event).outcome != Raised
    ensures HandlerSpec(w, rt, event).outcome == Ok
    ensures |HandlerSpec(w, rt, event).requests| == |Recipients(config, to)|
    ensures forall k :: 0 <= k < |HandlerSpec(w, rt, event).requests| ==>
      var m := HandlerSpec(w, rt, event).requests[k].message;
      && m.to == Some(Recipients(config, to)[k])
      && m.from == to
      && m.isMms == isMms
      && Some(m.body) == ForwardedText(from, text, rt.repr)
    ensures forall j, k :: 0 <= j < |HandlerSpec(w, rt, event).requests| && 0 <= k < |HandlerSpec(w, rt, event).requests| ==>
      HandlerSpec(w, rt, event).requests[j].message.(to := None) == HandlerSpec(w, rt, event).requests[k].message.(to := None)
    ensures forall k :: 0 <= k < |HandlerSpec(w, rt, event).requests| ==>
      var m := HandlerSpec(w, rt, event).requests[k].message;
      && (m.mediaUrls.Some? <==> Truthy(isMms) && Truthy(Field(body, "included").value))
      && (m.mediaUrls.Some? ==> m.mediaUrls.value == Proxied(MediaObjects(Field(body, "included").value).value, w.storage))
    ensures forall k :: 0 <= k < |HandlerSpec(w, rt, event).requests| ==>
      HandlerSpec(w, rt, event).requests[k].credentials == Some(Credentials(config[AccessKeyKey], config[SecretKeyKey]))
  {
    var attachment := MediaAttachment(isMms, body, w.s3ClientRaises, w.storage);
    assert !attachment.Crashed?;
  }

  /**
   * A failed send never stops the fan-out: whatever the carrier API does,
   * the response and the messages handed to `send_message` are the same;
   * only whether each POST went through differs.
   */
  lemma SendFailuresAreIsolated(w: World, rt: Runtime, event: Json, postRaises: nat -> bool)
    requires NumberMapShaped(w.ssm, rt.parse)
    ensures var run, run' := HandlerSpec(w, rt, event), HandlerSpec(w.(postRaises := postRaises), rt, event);
      && run.outcome == run'.outcome
      && |run.requests| == |run'.requests|
      && forall k :: 0 <= k < |run.requests| ==>
           run.requests[k].message == run'.requests[k].message && run.requests[k].credentials == run'.requests[k].credentials
  {
  }

  /**
   * The URLs of the proxy are exactly those of the media objects whose
   * lookups, fetch, put and presign all succeeded, in input order: the j-th
   * URL is the presigned URL of the j-th such object.
   */
  lemma ProxiedExactly(items: seq<Json>, answers: nat -> StorageAnswer)
    ensures var ok := Successes(Attempts(items, answers));
      && |Proxied(items, answers)| == |ok| <= |items|
      && (forall j :: 0 <= j < |ok| ==> ok[j] < |items| && Some(Proxied(items, answers)[j]) == answers(ok[j]).presigned)
      && (forall i, j :: 0 <= i < j < |ok| ==> ok[i] < ok[j])
      && (forall k :: 0 <= k < |items| ==>
            (k in ok <==> IsMediaObject(items[k]) && answers(k).fetched && answers(k).stored && answers(k).presigned.Some?))
  {
    SomesAreTheSuccesses(Attempts(items, answers));
  }
}

/** Two concrete invocations, end to end. */
module Scenarios {
  import opened Wrappers
  import opened Json
  import opened Configuration
  import opened MediaProxy
  import opened Sender
  import opened Handler

  const Receiver: string := "+15551230000"
  const Recipient: string := "+15559998888"
  const Originator: string := "+15550001111"
  const EnvelopeText: string := "inbound"

  /** The number map `{"+15551230000": ["+15559998888"]}`. */
  const NumberMap: Json := JObject(map[Receiver := JArray([JString(Recipient)])])

  /** The number map parameter as it is stored: `{"+15551230000": ["+15559998888"]}`. */
  const NumberMapText: string := "{\"+15551230000\": [\"+15559998888\"]}"

  /** Every fetch succeeds: the number map holds its JSON text, every other parameter its own name. */
  function Store(name: string): Option<string> {
    if name == NumberMapKey then Some(NumberMapText) else Some(name)
  }

  function Inbound(isMms: bool): Json {
    JObject(map[
      "data" := JObject(map["attributes" := JObject(map[
        "is_mms" := JBool(isMms), "to" := JString(Receiver), "from" := JString(Originator), "body" := JString("hello")])]),
      "included" := JArray([JObject(map["id" := JString("m1"), "attributes" := JObject(map[
        "url" := JString("https://media.example/m1"), "mime_type" := JString("image/png")])])])])
  }

  function Decoder(isMms: bool): string -> Option<Json> {
    s => if s == NumberMapText then Some(NumberMap) else if s == EnvelopeText then Some(Inbound(isMms)) else None
  }

  const Event: Json := JObject(map["body" := JString(EnvelopeText)])

  const Text: string := "FWD(+15550001111): hello"

  /** What the loader returns with this store and decoder. */
  lemma LoadsScenarioConfig(isMms: bool)
    ensures LoadedConfig(Store, Decoder(isMms)) == Some(map[
      BucketKey := Raw(BucketKey), NumberMapKey := Decoded(NumberMap),
      AccessKeyKey := Raw(AccessKeyKey), SecretKeyKey := Raw(SecretKeyKey)])
  {
    NamesDistinct();
    assert ParameterNames[0] == BucketKey && ParameterNames[1] == NumberMapKey;
    assert ParameterNames[2] == AccessKeyKey && ParameterNames[3] == SecretKeyKey;
    assert |EnvelopeText| < |AccessKeyKey| == |SecretKeyKey| < |BucketKey| < |NumberMapText|;
    assert Store(BucketKey) == Some(BucketKey) && Store(NumberMapKey) == Some(NumberMapText);
    assert Store(AccessKeyKey) == Some(AccessKeyKey) && Store(SecretKeyKey) == Some(SecretKeyKey);
    var parse := Decoder(isMms);
    assert parse(BucketKey) == None && parse(AccessKeyKey) == None && parse(SecretKeyKey) == None;
    assert parse(NumberMapText) == Some(NumberMap);
  }

  /** The envelope of this event is not base64 and its body decodes to the inbound message. */
  lemma ParsesScenarioEnvelope(isMms: bool, repr: Json -> string)
    ensures ParseEnvelope(Event, Runtime(Decoder(isMms), s => None, repr)) == Some(Inbound(isMms))
  {
    assert "isBase64Encoded" != "body";
    assert !Base64Declared(Event);
    assert Decoder(isMms)(EnvelopeText) == Some(Inbound(isMms));
  }

  /** The inbound message is addressed to the mapped receiving number. */
  lemma ParsesScenarioAttributes(isMms: bool)
    ensures ParseAttributes(Inbound(isMms), {Receiver}) == Mapped(JBool(isMms), Receiver, JString(Originator), JString("hello"))
  {
    var attrs := JObject(map["is_mms" := JBool(isMms), "to" := JString(Receiver), "from" := JString(Originator), "body" := JString("hello")]);
    assert "data" != "included";
    assert Field(Inbound(isMms), "data") == Some(JObject(map["attributes" := attrs]));
    assert Attr(Inbound(isMms), "is_mms") == Some(JBool(isMms));
    assert Attr(Inbound(isMms), "to") == Some(JString(Receiver));
    assert Attr(Inbound(isMms), "from") == Some(JString(Originator));
    assert Attr(Inbound(isMms), "body") == Some(JString("hello"));
  }

  /** The forwarded text names the originator. */
  lemma ScenarioText(repr: Json -> string)
    ensures ForwardedText(JString(Originator), JString("hello"), repr) == Some(Text)
  {
    assert "FWD(" + Originator + "):" + " " + "hello" == Text;
  }

  /**
   * An SMS to a number mapped to one recipient is sent once, from the
   * receiving number, with the forwarded text, and without `media_urls`.
   */
  lemma SmsIsForwarded()
    ensures var rt := Runtime(Decoder(false), s => None, j => "");
      var w := World(Store, false, k => StorageAnswer(true, true, Some("signed")), k => false);
      && NumberMapShaped(w.ssm, rt.parse)
      && HandlerSpec(w, rt, Event) == Run(Ok, [Request(
           Message(JBool(false), Receiver, Text, None, Some(JString(Recipient))),
           Some(Credentials(Raw(AccessKeyKey), Raw(SecretKeyKey))), true)])
  {
    var rt := Runtime(Decoder(false), s => None, j => "");
    LoadsScenarioConfig(false);
    ParsesScenarioEnvelope(false, rt.repr);
    ParsesScenarioAttributes(false);
    ScenarioText(rt.repr);
  }

  /**
   * An MMS whose only media object cannot be fetched is still sent, with an
   * empty `media_urls`, even though the POST raises.
   */
  lemma MmsWithFailedFetchIsForwarded()
    ensures var rt := Runtime(Decoder(true), s => None, j => "");
      var w := World(Store, false, k => StorageAnswer(false, true, Some("signed")), k => true);
      && NumberMapShaped(w.ssm, rt.parse)
      && HandlerSpec(w, rt, Event) == Run(Ok, [Request(
           Message(JBool(true), Receiver, Text, Some([]), Some(JString(Recipient))),
           Some(Credentials(Raw(AccessKeyKey), Raw(SecretKeyKey))), false)])
  {
    var rt := Runtime(Decoder(true), s => None, j => "");
    var w := World(Store, false, k => StorageAnswer(false, true, Some("signed")), k => true);
    LoadsScenarioConfig(true);
    ParsesScenarioEnvelope(true, rt.repr);
    ParsesScenarioAttributes(true);
    ScenarioText(rt.repr);
    var included := Field(Inbound(true), "included").value;
    assert MediaObjects(included) == Some(included.items);
    assert Attempts(included.items, w.storage) == [None];
    assert Somes([None]) == [];
    assert MediaAttachment(JBool(true), Inbound(true), w.s3ClientRaises, w.storage) == Attached([]);
  }
}
