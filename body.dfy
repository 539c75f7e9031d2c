/**
 * `decodeBody` (request_body_decoder.go): a request body is decoded by the
 * decoder registered for the media type of its `Content-Type`.
 */
module Body {
  import opened Wrappers
  import opened Values
  import opened BodyRegistry
  import opened UrlEncodedBody
  import opened MultipartBody

  /** The parts of a request the body decoders read. */
  datatype BodyRequest = BodyRequest(
    contentType: string,
    body: string,
    postArgs: seq<(string, string)>,
    form: Result<map<string, seq<string>>, Error>)

  /**
   * What the body decoders call and cannot see: JSON and YAML unmarshalling,
   * number parsing, the encoding function, and the decoders a caller
   * registers; and the decoding of one multipart part on its own, which the
   * multipart decoder uses in place of the source's whole-request re-decode.
   */
  datatype Env = Env(
    unmarshalJson: string -> Option<Value>,
    unmarshalYaml: string -> Option<Value>,
    parseFloat: string -> Option<real>,
    encoding: string -> Option<Encoding>,
    decodePart: PartDecoder,
    custom: (nat, BodyRequest, Schema) -> Result<Value, Error>)
  {
    /** What the url-encoded decoder needs of the environment. */
    function Form(): FormEnv {
      FormEnv(parseFloat, encoding)
    }
  }

  /** `decodeBody` never panics: a url-encoded body's schema satisfies `UrlEncodedSafe`. */
  predicate BodyDecodable(decoders: map<string, BodyDecoder>, req: BodyRequest, schema: Schema, env: Env) {
    var mt := ParseMediaType(req.contentType);
    mt in decoders && decoders[mt] == UrlEncoded ==> UrlEncodedSafe(req.postArgs, schema, env.Form())
  }

  /** What a registered decoder returns. */
  function DecodeWith(decoder: BodyDecoder, req: BodyRequest, schema: Schema, env: Env): Result<Value, Error>
    requires decoder == UrlEncoded ==> UrlEncodedSafe(req.postArgs, schema, env.Form())
  {
    match decoder
    case PlainText => Ok(Str(req.body))
    case File => Ok(Str(req.body))
    case Json =>
      (match env.unmarshalJson(req.body)
       case None => Err(ParseError(KindInvalidFormat, "", MalformedBody))
       case Some(v) => Ok(v))
    case Yaml =>
      (match env.unmarshalYaml(req.body)
       case None => Err(ParseError(KindInvalidFormat, "", MalformedBody))
       case Some(v) => Ok(v))
    case UrlEncoded => UrlEncodedOf(req.postArgs, schema, env.Form())
    case Multipart => MultipartOf(req.form, schema, env.decodePart)
    case Custom(id) => env.custom(id, req, schema)
  }

  /** What `decodeBody` returns, given the registry's map. */
  function BodyOf(decoders: map<string, BodyDecoder>, req: BodyRequest, schema: Schema, env: Env): Result<Value, Error>
    requires BodyDecodable(decoders, req, schema, env)
  {
    var mt := ParseMediaType(req.contentType);
    if mt !in decoders then Err(ParseError(KindUnsupportedFormat, "", UnsupportedContentType(mt)))
    else DecodeWith(decoders[mt], req, schema, env)
  }

  /**
   * `decodeBody`: dispatches on the media type of the request's
   * `Content-Type`; an unregistered media type is a `ParseError` of kind
   * `KindUnsupportedFormat`, and otherwise the result is the registered
   * decoder's.
   */
  method DecodeBody(registry: Registry, req: BodyRequest, schema: Schema, env: Env) returns (r: Result<Value, Error>)
    requires BodyDecodable(registry.decoders, req, schema, env)
    ensures r == BodyOf(registry.decoders, req, schema, env)
    ensures ParseMediaType(req.contentType) !in registry.decoders ==>
      r == Err(ParseError(KindUnsupportedFormat, "", UnsupportedContentType(ParseMediaType(req.contentType))))
    ensures ParseMediaType(req.contentType) in registry.decoders ==>
      r == DecodeWith(registry.decoders[ParseMediaType(req.contentType)], req, schema, env)
  {
    var mediaType := ParseMediaType(req.contentType);
    var decoder := registry.RegisteredBodyDecoder(mediaType);
    if decoder.None? {
      return Err(ParseError(KindUnsupportedFormat, "", UnsupportedContentType(mediaType)));
    }
    match decoder.value
    case UrlEncoded =>
      r := UrlEncodedBodyDecoder(req.postArgs, schema, env.Form());
    case Multipart =>
      r := MultipartBodyDecoder(req.form, schema, env.decodePart);
    case _ =>
      r := DecodeWith(decoder.value, req, schema, env);
  }

  /**
   * The source decodes a multipart part with `decodeBody` on the whole
   * request. When the request's media type selects the multipart decoder,
   * that call is the multipart decoder again, on the whole form with the
   * part's schema: the part decoder `Redecode` describes.
   */
  lemma MultipartPartRedecodes(decoders: map<string, BodyDecoder>, req: BodyRequest, env: Env, name: string, s: Schema)
    requires ParseMediaType(req.contentType) in decoders && decoders[ParseMediaType(req.contentType)] == Multipart
    ensures BodyDecodable(decoders, req, s, env)
    ensures BodyOf(decoders, req, s, env) == Redecode(req.form, env.decodePart)(name, Some(s))
  {
  }

  /** With the default table, a JSON body whose `Content-Type` carries a charset is still decoded as JSON. */
  lemma JsonDispatch(req: BodyRequest, schema: Schema, env: Env)
    requires req.contentType == "application/json; charset=utf-8"
    ensures BodyDecodable(DefaultDecoders(), req, schema, env)
    ensures BodyOf(DefaultDecoders(), req, schema, env) == (match env.unmarshalJson(req.body)
      case None => Err(ParseError(KindInvalidFormat, "", MalformedBody))
      case Some(v) => Ok(v))
  {
    JsonWithCharset();
    DefaultDecodersShared();
  }
}
