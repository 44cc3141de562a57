# Flowroute message forwarder — a verified model of its forwarding pipeline

The forwarder is an AWS Lambda function. It receives inbound SMS/MMS
webhooks from the Flowroute carrier API. It looks up the receiving number
in a number map held in the SSM parameter store, and re-sends the message,
prefixed `FWD(<from>):`, to every number the map lists for it. For an MMS it
first copies each media object into an S3 bucket and replaces its URL with a
presigned one.

This project models the four functions of
`flowroute-message-forwarder/index.py`. Each is modelled in the source's
own form.

- `load_configuration` is the loop `Configuration.LoadConfiguration`. It is
  proved to compute `Configuration.LoadedConfig`.
- `copy_and_generate_urls` is the loop `MediaProxy.CopyAndGenerateUrls`. It
  is proved to compute `MediaProxy.Proxied`.
- `send_message` is the function `Sender.SendMessage`. It swallows every
  exception and records the request it was asked to make.
- `handler` is the method `Handler.Handle`, with its early returns. Its tail
  is `Handler.Forward`, which updates the shared message in place during the
  fan-out. `Handle` is proved to compute `Handler.HandlerSpec`, the handler
  as a function of its inputs. The properties in module `Properties` are
  stated over `HandlerSpec`.

Everything outside the process is an oracle parameter:

- the parameter store (`World.ssm`);
- whether creating the S3 client at the top of `copy_and_generate_urls`
  raises (`World.s3ClientRaises`);
- the media fetch, the S3 put and the presign for the k-th media object
  (`World.storage`);
- whether the POST for the k-th recipient raises (`World.postRaises`);
- `json.loads`, `base64.b64decode`, and `str()` of numbers, lists and dicts
  (`Runtime`).

Decoded JSON is the `Json.Json` datatype. Python's dynamic failures decide
the control flow, and the model follows them as written.

- A `KeyError` or `TypeError` inside one of the handler's `try` blocks is a
  400.
- An exception outside every `try` is the outcome `Raised`. This covers
  four cases: `" " + body` on a body that is neither None nor a string
  (line 137); `body["included"]` missing on an MMS (line 144); and, for a
  non-empty `included`, creating the S3 client (line 64) or iterating an
  `included` that is a number or boolean (line 67). The last two happen in
  `copy_and_generate_urls`, before its per-object `try`.

Where the specification and the code disagree, the model follows the code.

- **The loader on a failed fetch.** The specification says a failed fetch
  leaves that key absent. In the code, `parameter_value` keeps its previous
  value. If the first fetch fails, the variable is unbound: the `NameError`
  from `json.loads` is raised again by the fallback store at line 35. It
  escapes the loader, and the handler answers 500. A later failed fetch
  stores the previous parameter's value under the failed name. So the
  loader either raises or returns all four keys
  (`Configuration.LoaderStores`).
- **Terminal outcomes.** The specification lists only 500, 400 and 200. The
  code can also end in an uncaught exception, in the four cases listed
  above (`Properties.UncaughtExceptions`).
- **A missing inbound body.** The specification says an absent body gives
  `"FWD(<from>):"`. In the code, a missing `body` attribute is a `KeyError`
  inside the `try`, which gives 400. Only a JSON `null` body gives the bare
  prefix.

## Model

| member | source | states |
|---|---|---|
| Configuration.DecodeOrRaw | flowroute-message-forwarder/index.py:31-35 | the value is stored decoded exactly when it decodes as JSON, and is then the decoded document; otherwise it is the raw string itself |
| Configuration.Carried | flowroute-message-forwarder/index.py:24-29 | `parameter_value` after iteration i is unbound exactly when every fetch up to i failed; after a successful fetch it is that fetch's value |
| Configuration.LoadedConfig | flowroute-message-forwarder/index.py:12-37 | the loader raises exactly when the first fetch (the bucket name) fails; when it returns, all four parameter names are keys |
| Configuration.LoaderStores | flowroute-message-forwarder/index.py:17-37 | the loader raises iff the first fetch fails; otherwise its keys are exactly the four names, a fetched value is stored decoded-or-raw, and a failed later fetch stores the previous parameter's value |
| Configuration.LoadConfiguration | flowroute-message-forwarder/index.py:17-37 | the loop that fills the dict and carries `parameter_value` across iterations returns exactly `LoadedConfig` |
| MediaProxy.ProxyOne | flowroute-message-forwarder/index.py:68-89 | one media object yields a URL iff it has an id, a url and a mime_type and the fetch, the put and the presign all succeed; the URL is then the presigned one |
| MediaProxy.Somes | flowroute-message-forwarder/index.py:66-91 | keeping the successful attempts never lengthens the list, and keeps its length iff every attempt succeeded |
| MediaProxy.SomesAreTheSuccesses | flowroute-message-forwarder/index.py:66-91 | the j-th kept URL is the value at the j-th successful position; positions ascend; a position is kept iff its attempt succeeded |
| MediaProxy.SomesAppend | flowroute-message-forwarder/index.py:66-91 | filtering the concatenation of two runs of attempts is the concatenation of their filtered results |
| MediaProxy.OneObjectIsolated | flowroute-message-forwarder/index.py:67-89 | a failure on object k changes only object k's contribution; the URLs of the objects before and after it do not depend on k's answers |
| MediaProxy.MediaObjects | flowroute-message-forwarder/index.py:67 | iterating `included` succeeds iff it is a list, a string or a dict; a list yields its elements; no element yielded by a string or a dict is a media object |
| MediaProxy.NonListIncludedProxiesNothing | flowroute-message-forwarder/index.py:66-91 | a string or dict `included` yields an empty URL list, whatever the storage answers |
| MediaProxy.CopyAndGenerateUrls | flowroute-message-forwarder/index.py:61-91 | raises iff creating the S3 client raises or `included` is not iterable; otherwise the loop appending one URL per surviving object returns exactly `Proxied` of the iterated objects |
| Sender.SendMessage | flowroute-message-forwarder/index.py:40-58 | the request carries the message unchanged; credentials are sent iff both keys are configured, and are then the two configured values; the POST goes through iff credentials were present and it did not raise; no error ever escapes |
| Handler.ParseEnvelope | flowroute-message-forwarder/index.py:106-114 | a body is decoded only from a string `body` field; for a string body, with `isBase64Encoded` truthy the result is exactly base64-then-JSON (None when either fails), and without it exactly `json.loads` |
| Handler.ParseAttributes | flowroute-message-forwarder/index.py:118-133 | the number is unmapped iff `is_mms` and a hashable `to` exist and `to` is not a key of the number map, whatever `from` and `body` are; it is mapped iff `to` is a key and `from` and `body` exist, and the fields are then the inbound attributes; everything else is a 400 |
| Handler.ForwardedText | flowroute-message-forwarder/index.py:135-137 | the text starts with `FWD(<from>):`; for a null body it is exactly that prefix (no trailing space); for a string body, the prefix is followed by a space and the body; any other body raises |
| Handler.Outbound | flowroute-message-forwarder/index.py:139 | `message_json` is sent from the receiving number, with `is_mms` copied, the forwarded text as body and no `to`; it has `media_urls` exactly when media were attached, and then holds the attached URLs |
| Handler.MediaAttachment | flowroute-message-forwarder/index.py:141-147 | `media_urls` is left out iff the message is not an MMS or `included` is empty; it is set iff the message is an MMS with a non-empty, iterable `included` and the S3 client is created, and then equals the proxied URLs, possibly none |
| Handler.FanOut | flowroute-message-forwarder/index.py:152-154 | one send per recipient in list order; the k-th has `to` equal to recipient k, all other fields equal to the shared message, and is sent with the k-th transport answer |
| Handler.Handle | flowroute-message-forwarder/index.py:94-133 | the handler's early returns (500 on a raising loader, 400 on a bad envelope or bad attributes, 200 on an unmapped number), then the forwarding tail, compute exactly `HandlerSpec` |
| Handler.Forward | flowroute-message-forwarder/index.py:135-156 | building the message, attaching media and updating `to` in place across the recipient loop computes exactly `Forwarding`: the same outcome and the same requests |
| Properties.StatusCodes | flowroute-message-forwarder/index.py:97-156 | 500 iff the first parameter fetch fails; 400 iff the envelope does not decode or the attributes are malformed; every other response is 200/"OK"; only a 200 comes with sends |
| Properties.UnmappedNumberIsAcknowledged | flowroute-message-forwarder/index.py:119-129 | an unmapped `to` gives 200/"OK" and no sends, even when `from` or `body` is missing |
| Properties.UncaughtExceptions | flowroute-message-forwarder/index.py:135-147 | for a mapped number, an exception escapes iff the body is neither null nor a string, or the message is an MMS whose `included` is missing, or is truthy and either not iterable or met by an S3 client that cannot be created; nothing is sent before it |
| Properties.ForwardedRequests | flowroute-message-forwarder/index.py:135-156 | a forwarded message yields 200 and one request per recipient: the k-th goes to recipient k, from the receiving number, with `is_mms` copied and the forwarded text; all requests are equal apart from `to`; `media_urls` follows `MediaAttachment`; every request uses the configured credentials |
| Properties.SendFailuresAreIsolated | flowroute-message-forwarder/index.py:45-58 | whatever the carrier API does, the response and every message and credential handed to `send_message` are unchanged; a failing send never stops later ones |
| Properties.ProxiedExactly | flowroute-message-forwarder/index.py:66-91 | the URLs are those of exactly the objects whose lookups, fetch, put and presign all succeeded, in input order, and there are at most as many URLs as objects |
| Scenarios.SmsIsForwarded | flowroute-message-forwarder/index.py:94-156 | an SMS to `+15551230000`, mapped to `["+15559998888"]`, from `+15550001111` with body `hello`, is sent once as `FWD(+15550001111): hello` from the receiving number, without `media_urls` |
| Scenarios.MmsWithFailedFetchIsForwarded | flowroute-message-forwarder/index.py:61-156 | the same message as an MMS whose only media fetch fails is still sent once, with an empty `media_urls`, and the handler still answers 200 although the POST raises |

## Left out

- SSM, S3, `requests.get`, `requests.post` and presigned-URL generation are oracle answers. What they do internally, and the bucket, key, content type and headers passed to them, are not modelled.
- `json.loads`, `base64.b64decode` and Python's `str()` of numbers, lists and dicts are taken as given partial functions. The base64 decoder is read back as text, not bytes.
- JSON numbers are integers; floats are not modelled.
- Logging, `json.dumps` of the event and body for the log, and `response.json()` are not modelled. They have no effect on the outcome.
- The `context` argument is unused by the handler and is not modelled.
- Handler.Handle: requires the decoded number map to be a JSON object whose values are lists. A number map that stays a raw string, or holds other values, would make `in` and the recipient loop depend on Python's dynamic typing (a substring test, iteration over a string).
- Handler.HandlerSpec: has the same number-map requirement as `Handler.Handle`, and so do the lemmas in `Properties` and `Handler.MappedNumbers`.
- MediaProxy.MediaObjects: an `included` that is a dict is modelled as no media objects. In the source its string keys are iterated and each one is skipped by the `try`, so the URL list is empty either way (`MediaProxy.NonListIncludedProxiesNothing`); only the position of the storage answers consulted differs, and none is consulted.
- The SSM client created at the top of `load_configuration` (line 15) has no answer of its own. Its failure raises from the loader and gives the same 500 as a failed first fetch, which `World.ssm` already expresses.
- Concurrency and timeouts are not modelled. The code is sequential.
