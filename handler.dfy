/**
 * The Lambda entry point, `handler(event, context)`: load the configuration,
 * decode the envelope, read the message attributes, look the receiving
 * number up in the number map, build the forwarded message, proxy its media
 * and send it once per mapped recipient.
 *
 * Everything outside the process is an oracle: the parameter store, the
 * media source and object store, and the carrier API answer through `World`;
 * the JSON decoder, the base64 decoder and `str()` of non-string values come
 * from `Runtime`. The result is the response the handler returns, or
 * `Raised` when an exception escapes it, together with the send requests it
 * made.
 */
module Handler {
  import opened Wrappers
  import opened Json
  import opened Configuration
  import opened MediaProxy
  import opened Sender

  /** The handler's response dict, or an exception escaping it. */
  datatype Outcome = Returned(status: int, text: string) | Raised

  const InternalServerError: Outcome := Returned(500, "Internal Server Error")
  const BadRequest: Outcome := Returned(400, "Bad Request")
  const Ok: Outcome := Returned(200, "OK")

  /** Library behaviour the model takes as given: `json.loads`, `base64.b64decode` read back as text, and `str()` of numbers, lists and dicts. */
  datatype Runtime = Runtime(parse: string -> Option<Json>, b64decode: string -> Option<string>, repr: Json -> string)

  /**
   * The answers of the outside world: the parameter store by name, whether
   * creating the S3 client in `copy_and_generate_urls` raises, the media
   * source and object store for the media object at position k, and whether
   * the POST for the k-th recipient raises.
   */
  datatype World = World(ssm: string -> Option<string>, s3ClientRaises: bool, storage: nat -> StorageAnswer, postRaises: nat -> bool)

  /** One invocation: how it ended and the send requests it made, in order. */
  datatype Run = Run(outcome: Outcome, requests: seq<Request>)

  /** The envelope declares a base64 body: `event.get("isBase64Encoded")` is truthy. */
  predicate Base64Declared(event: Json) {
    Field(event, "isBase64Encoded").Some? && Truthy(Field(event, "isBase64Encoded").value)
  }

  /**
   * The "Parse event" step: `json.loads` of `event["body"]`, base64-decoded
   * first when the envelope says so. Every failure (no dict, no body, a body
   * that is not a string, bad base64, bad JSON) is caught: None.
   */
  function ParseEnvelope(event: Json, rt: Runtime): (body: Option<Json>)
    ensures body.Some? ==> Field(event, "body").Some? && Field(event, "body").value.JString?
    ensures body.Some? && Base64Declared(event) ==>
      var raw := Field(event, "body").value.s;
      rt.b64decode(raw).Some? && body == rt.parse(rt.b64decode(raw).value)
    ensures body.Some? && !Base64Declared(event) ==> body == rt.parse(Field(event, "body").value.s)
    ensures Field(event, "body").Some? && Field(event, "body").value.JString? && !Base64Declared(event) ==>
      body == rt.parse(Field(event, "body").value.s)
    ensures Field(event, "body").Some? && Field(event, "body").value.JString? && Base64Declared(event) ==>
      var raw := Field(event, "body").value.s;
      body == (if rt.b64decode(raw).Some? then rt.parse(rt.b64decode(raw).value) else None)
  {
    match Field(event, "body")
    case Some(JString(raw)) =>
      if Base64Declared(event) then
        match rt.b64decode(raw)
        case None => None
        case Some(decoded) => rt.parse(decoded)
      else rt.parse(raw)
    case _ => None
  }

  /** `body["data"]["attributes"][name]`. */
  function Attr(body: Json, name: string): Option<Json> {
    Path(body, "data", "attributes", name)
  }

  /** The inbound `to` is a string key of the number map. */
  predicate IsMapped(body: Json, mapped: set<string>) {
    Attr(body, "to").Some? && Attr(body, "to").value.JString? && Attr(body, "to").value.s in mapped
  }

  /** How the "Parse body attributes" step ends. */
  datatype Attributes =
    | Malformed
    | Unmapped
    | Mapped(isMms: Json, to: string, from: Json, text: Json)

  /**
   * The "Parse body attributes" step. `is_mms` and `to` are read first; the
   * membership test comes before `from` and `body` are read, so an unmapped
   * number is acknowledged whatever those two hold. A list or dict `to` is
   * unhashable and raises inside the `try`, as does every missing field.
   */
  function ParseAttributes(body: Json, mapped: set<string>): (a: Attributes)
    ensures a.Unmapped? <==>
      Attr(body, "is_mms").Some? && Attr(body, "to").Some? && Hashable(Attr(body, "to").value) && !IsMapped(body, mapped)
    ensures a.Mapped? <==>
      Attr(body, "is_mms").Some? && IsMapped(body, mapped) && Attr(body, "from").Some? && Attr(body, "body").Some?
    ensures a.Mapped? ==>
      && a.to in mapped
      && Attr(body, "to") == Some(JString(a.to))
      && Attr(body, "is_mms") == Some(a.isMms)
      && Attr(body, "from") == Some(a.from)
      && Attr(body, "body") == Some(a.text)
  {
    match (Attr(body, "is_mms"), Attr(body, "to"))
    case (Some(isMms), Some(to)) =>
      if !Hashable(to) then Malformed
      else if !(to.JString? && to.s in mapped) then Unmapped
      else
        (match (Attr(body, "from"), Attr(body, "body"))
         case (Some(from), Some(text)) => Mapped(isMms, to.s, from, text)
         case _ => Malformed)
    case _ => Malformed
  }

  /**
   * The forwarded text: `"FWD(%s):" % from`, then a space and the original
   * body when that body is not None. A body that is neither None nor a string
   * makes `" " + body` raise outside any `try` (None here).
   */
  function ForwardedText(from: Json, text: Json, repr: Json -> string): (r: Option<string>)
    ensures r.Some? <==> text.JNull? || text.JString?
    ensures r.Some? ==> |r.value| >= |"FWD(" + Str(from, repr) + "):"| && r.value[..|"FWD(" + Str(from, repr) + "):"|] == "FWD(" + Str(from, repr) + "):"
    ensures text.JNull? ==> r == Some("FWD(" + Str(from, repr) + "):")
    ensures text.JString? ==> r.value[|"FWD(" + Str(from, repr) + "):"|..] == " " + text.s
  {
    var prefix := "FWD(" + Str(from, repr) + "):";
    match text
    case JNull => Some(prefix)
    case JString(s) => Some(prefix + " " + s)
    case _ => None
  }

  /** What happens to `media_urls`: left out, set to the proxied URLs, or an exception escapes. */
  datatype Attachment = Absent | Attached(urls: seq<string>) | Crashed

  /**
   * The MMS branch. For an MMS, `body["included"]` is read outside any
   * `try`, so a missing key raises; a non-empty value is handed to
   * `copy_and_generate_urls`, whose S3 client creation and iteration of
   * `included` both raise outside any `try`; otherwise the proxied URLs are
   * set as `media_urls`, even when there are none.
   */
  function MediaAttachment(isMms: Json, body: Json, s3ClientRaises: bool, storage: nat -> StorageAnswer): (r: Attachment)
    ensures r.Absent? <==> !Truthy(isMms) || (Field(body, "included").Some? && !Truthy(Field(body, "included").value))
    ensures r.Attached? <==>
      Truthy(isMms) && Field(body, "included").Some? && Truthy(Field(body, "included").value)
      && !s3ClientRaises && MediaObjects(Field(body, "included").value).Some?
    ensures r.Attached? ==> r.urls == Proxied(MediaObjects(Field(body, "included").value).value, storage)
  {
    if !Truthy(isMms) then Absent
    else
      match Field(body, "included")
      case None => Crashed
      case Some(included) =>
        if !Truthy(included) then Absent
        else if s3ClientRaises then Crashed
        else
          match MediaObjects(included)
          case None => Crashed
          case Some(items) => Attached(Proxied(items, storage))
  }

  /**
   * The fan-out: the shared message with `to` set to the k-th recipient,
   * handed to `send_message` once per recipient, in list order, whatever
   * the earlier sends did.
   */
  function FanOut(message: Message, recipients: seq<Json>, config: Config, postRaises: nat -> bool): (r: seq<Request>)
    ensures |r| == |recipients|
    ensures forall k :: 0 <= k < |r| ==> r[k].message.to == Some(recipients[k])
    ensures forall k :: 0 <= k < |r| ==> r[k].message.(to := None) == message.(to := None)
    ensures forall k :: 0 <= k < |r| ==> r[k] == SendMessage(r[k].message, config, postRaises(k))
  {
    var r := seq(|recipients|, k requires 0 <= k < |recipients| => SendMessage(message.(to := Some(recipients[k])), config, postRaises(k)));
    assert forall k :: 0 <= k < |r| ==> r[k] == SendMessage(message.(to := Some(recipients[k])), config, postRaises(k));
    r
  }

  /** The numbers the number map forwards. */
  function MappedNumbers(ssm: string -> Option<string>, parse: string -> Option<Json>): set<string>
    requires NumberMapShaped(ssm, parse) && LoadedConfig(ssm, parse).Some?
  {
    LoadedConfig(ssm, parse).value[NumberMapKey].json.fields.Keys
  }

  /** The recipients the number map lists for `to`. */
  function Recipients(config: Config, to: string): seq<Json>
    requires NumberMapKey in config && IsNumberMap(config[NumberMapKey])
    requires to in config[NumberMapKey].json.fields
  {
    config[NumberMapKey].json.fields[to].items
  }

  /**
   * `message_json` before the fan-out: sent from the number that received
   * the message, `is_mms` copied, the forwarded text as its body, no `to`
   * yet, and `media_urls` exactly when media were attached.
   */
  function Outbound(isMms: Json, to: string, messageText: string, attachment: Attachment): (m: Message)
    ensures m.from == to && m.isMms == isMms && m.body == messageText && m.to.None?
    ensures m.mediaUrls.Some? <==> attachment.Attached?
    ensures attachment.Attached? ==> m.mediaUrls == Some(attachment.urls)
  {
    Message(isMms, to, messageText, if attachment.Attached? then Some(attachment.urls) else None, None)
  }

  /** From the forwarded text on, for a mapped number. */
  function Forwarding(w: World, rt: Runtime, config: Config, body: Json, attributes: Attributes): Run
    requires NumberMapKey in config && IsNumberMap(config[NumberMapKey])
    requires attributes.Mapped? && attributes.to in config[NumberMapKey].json.fields
  {
    match ForwardedText(attributes.from, attributes.text, rt.repr)
    case None => Run(Raised, [])
    case Some(messageText) =>
      var attachment := MediaAttachment(attributes.isMms, body, w.s3ClientRaises, w.storage);
      if attachment.Crashed? then Run(Raised, [])
      else
        var message := Outbound(attributes.isMms, attributes.to, messageText, attachment);
        Run(Ok, FanOut(message, Recipients(config, attributes.to), config, w.postRaises))
  }

  /** From the attribute step on, once the envelope has decoded. */
  function AfterEnvelope(w: World, rt: Runtime, config: Config, body: Json): Run
    requires NumberMapKey in config && IsNumberMap(config[NumberMapKey])
  {
    var attributes := ParseAttributes(body, config[NumberMapKey].json.fields.Keys);
    match attributes
    case Malformed => Run(BadRequest, [])
    case Unmapped => Run(Ok, [])
    case Mapped(_, _, _, _) => Forwarding(w, rt, config, body, attributes)
  }

  /** One invocation of the handler, as a function of its inputs. */
  function HandlerSpec(w: World, rt: Runtime, event: Json): Run
    requires NumberMapShaped(w.ssm, rt.parse)
  {
    match LoadedConfig(w.ssm, rt.parse)
    case None => Run(InternalServerError, [])
    case Some(config) =>
      match ParseEnvelope(event, rt)
      case None => Run(BadRequest, [])
      case Some(body) => AfterEnvelope(w, rt, config, body)
  }

  /** `handler(event, context)`, with the shared message dict updated in place across the fan-out. */
  method Handle(w: World, rt: Runtime, event: Json) returns (outcome: Outcome, requests: seq<Request>)
    requires NumberMapShaped(w.ssm, rt.parse)
    ensures Run(outcome, requests) == HandlerSpec(w, rt, event)
  {
    requests := [];
    var loaded := LoadConfiguration(w.ssm, rt.parse);
    if loaded.None? {
      return InternalServerError, [];
    }
    var config := loaded.value;

    var parsed := ParseEnvelope(event, rt);
    if parsed.None? {
      return BadRequest, [];
    }
    var body := parsed.value;
    assert HandlerSpec(w, rt, event) == AfterEnvelope(w, rt, config, body);

    var attributes := ParseAttributes(body, config[NumberMapKey].json.fields.Keys);
    if attributes.Malformed? {
      return BadRequest, [];
    }
    if attributes.Unmapped? {
      return Ok, [];
    }
    assert HandlerSpec(w, rt, event) == Forwarding(w, rt, config, body, attributes);
    outcome, requests := Forward(w, rt, config, body, attributes);
  }

  /**
   * The rest of `handler` for a mapped number: build the message dict, proxy
   * the media of an MMS, then update `to` in place and send, once per
   * recipient.
   */
  method Forward(w: World, rt: Runtime, config: Config, body: Json, attributes: Attributes)
    returns (outcome: Outcome, requests: seq<Request>)
    requires NumberMapKey in config && IsNumberMap(config[NumberMapKey])
    requires attributes.Mapped? && attributes.to in config[NumberMapKey].json.fields
    ensures Run(outcome, requests) == Forwarding(w, rt, config, body, attributes)
  {
    requests := [];
    var messageText := ForwardedText(attributes.from, attributes.text, rt.repr);
    if messageText.None? {
      return Raised, [];
    }
    var message := Message(attributes.isMms, attributes.to, messageText.value, None, None);

    if Truthy(attributes.isMms) {
      var included := Field(body, "included");
      if included.None? {
        return Raised, [];
      }
      if Truthy(included.value) {
        var urls := CopyAndGenerateUrls(included.value, w.s3ClientRaises, w.storage);
        if urls.None? {
          return Raised, [];
        }
        message := message.(mediaUrls := urls);
      }
    }
    ghost var attachment := MediaAttachment(attributes.isMms, body, w.s3ClientRaises, w.storage);
    assert message == Outbound(attributes.isMms, attributes.to, messageText.value, attachment);

    ghost var shared := message;
    var recipients := Recipients(config, attributes.to);
    ghost var expected := FanOut(shared, recipients, config, w.postRaises);
    for k := 0 to |recipients|
      invariant message.(to := None) == shared
      invariant requests == expected[..k]
    {
      message := message.(to := Some(recipients[k]));
      assert message == expected[k].message;
      requests := requests + [SendMessage(message, config, w.postRaises(k))];
      assert expected[..k + 1] == expected[..k] + [expected[k]];
    }
    assert expected[..|recipients|] == expected;
    outcome := Ok;
  }
}
