/**
 * The message sender, `send_message`: one POST of the outbound message to
 * the carrier API, authenticated with the two credential parameters. Every
 * exception is caught and logged, so the caller learns nothing; the model
 * records the request it was asked to make.
 */
module Sender {
  import opened Wrappers
  import opened Json
  import opened Configuration

  /**
   * The outbound message dict. `to` and `media_urls` are absent (None) until
   * the handler sets them.
   */
  datatype Message = Message(isMms: Json, from: string, body: string, mediaUrls: Option<seq<string>>, to: Option<Json>)

  /** The HTTP Basic credentials `(access key, secret key)`. */
  datatype Credentials = Credentials(accessKey: ConfigValue, secretKey: ConfigValue)

  /**
   * One call of `send_message`: the message as it stood when it was handed
   * over, the credentials read from the configuration (None when a key is
   * missing, whose KeyError is swallowed before anything is posted), and
   * whether `requests.post` returned rather than raised.
   */
  datatype Request = Request(message: Message, credentials: Option<Credentials>, posted: bool)

  /**
   * `send_message(message, config)`. `postRaises` is the transport's answer.
   * No outcome escapes: the result is a record, never an error.
   */
  function SendMessage(message: Message, config: Config, postRaises: bool): (req: Request)
    ensures req.message == message
    ensures req.credentials.Some? <==> AccessKeyKey in config && SecretKeyKey in config
    ensures req.credentials.Some? ==>
      req.credentials.value == Credentials(config[AccessKeyKey], config[SecretKeyKey])
    ensures req.posted <==> req.credentials.Some? && !postRaises
  {
    if AccessKeyKey in config && SecretKeyKey in config then
      Request(message, Some(Credentials(config[AccessKeyKey], config[SecretKeyKey])), !postRaises)
    else
      Request(message, None, false)
  }
}
