/** The typed-config codec: wrapping an HTTP connection manager into an
    `Any` envelope and unwrapping it again. The byte-level protobuf
    serialisation is abstracted to the `Message` the envelope carries. */
module Codec {
  import opened Wrappers
  import opened Resources

  /** The type URL the marshaller writes for an HTTP connection manager. */
  const HcmTypeUrl: string :=
    "type.googleapis.com/envoy.config.filter.network.http_connection_manager.v2.HttpConnectionManager"

  /** Marshal a connection manager into an envelope (total: the source
      panics on a marshal error, which cannot occur for these values). */
  function EncodeHCM(manager: HttpConnectionManager): Any
  {
    Any(HcmTypeUrl, HcmMessage(manager))
  }

  /** Unmarshal an envelope into a connection manager. It fails exactly when
      the type URL is not the connection manager's or the payload does not
      parse as one, and whatever decodes re-encodes to the same envelope. */
  function DecodeHCM(config: Any): (r: Result<HttpConnectionManager, DecodeError>)
    ensures r.Ok? <==> config.typeUrl == HcmTypeUrl && config.value.HcmMessage?
    ensures config.typeUrl != HcmTypeUrl ==> r == Err(TypeUrlMismatch(config.typeUrl))
    ensures r.Ok? ==> EncodeHCM(r.value) == config
  {
    if config.typeUrl != HcmTypeUrl then Err(TypeUrlMismatch(config.typeUrl))
    else match config.value
      case HcmMessage(manager) => Ok(manager)
      case Opaque(_) => Err(MalformedPayload)
  }

  /** Decoding what was encoded gives back the same connection manager. */
  lemma DecodeEncode(manager: HttpConnectionManager)
    ensures DecodeHCM(EncodeHCM(manager)) == Ok(manager)
  {
  }
}
