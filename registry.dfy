/**
 * The registry of request-body decoders keyed by content type, and
 * `parseMediaType` (request_body_decoder.go).
 */
module BodyRegistry {
  import opened Wrappers
  import opened Text

  /** The body decoders the package defines, and one a caller registers, told apart by a number. */
  datatype BodyDecoder = PlainText | Json | Yaml | UrlEncoded | Multipart | File | Custom(id: nat)

  /** `parseMediaType`: a `Content-Type` value without its parameters. */
  function ParseMediaType(contentType: string): (r: string)
    ensures ';' !in contentType ==> r == contentType
    ensures ';' in contentType ==> |r| < |contentType| && r == contentType[..|r|] && contentType[|r|] == ';'
    ensures ';' !in r
  {
    var i := IndexByte(contentType, ';');
    if i < 0 then contentType else contentType[..i]
  }

  /** A media type is its own media type, so parsing twice is parsing once. */
  lemma ParseMediaTypeIdempotent(contentType: string)
    ensures ParseMediaType(ParseMediaType(contentType)) == ParseMediaType(contentType)
  {
  }

  /** A media type followed by parameters parses to the media type. */
  lemma {:induction false} MediaTypeWithParameters(mediaType: string, parameters: string)
    requires ';' !in mediaType && parameters != [] && parameters[0] == ';'
    ensures ParseMediaType(mediaType + parameters) == mediaType
  {
    var s := mediaType + parameters;
    assert s[|mediaType|] == ';';
    assert forall j :: 0 <= j < |mediaType| ==> s[j] == mediaType[j];
    assert s[..|mediaType|] == mediaType;
  }

  /** A `Content-Type` with a charset parameter names its bare media type. */
  lemma JsonWithCharset()
    ensures ParseMediaType("application/json; charset=utf-8") == "application/json"
  {
    assert "application/json; charset=utf-8" == "application/json" + "; charset=utf-8";
    MediaTypeWithParameters("application/json", "; charset=utf-8");
  }

  /** The table `init` registers. */
  function DefaultDecoders(): map<string, BodyDecoder> {
    map[
      "text/plain" := PlainText,
      "application/json" := Json,
      "application/x-yaml" := Yaml,
      "application/yaml" := Yaml,
      "application/problem+json" := Json,
      "application/x-www-form-urlencoded" := UrlEncoded,
      "multipart/form-data" := Multipart,
      "application/octet-stream" := File]
  }

  /** Eight distinct media types are registered. */
  lemma DefaultDecodersCount()
    ensures |DefaultDecoders()| == 8
  {
    var s: set<string> := {};
    assert "text/plain" !in s;
    s := s + {"text/plain"};
    assert "application/json" !in s;
    s := s + {"application/json"};
    assert "application/x-yaml" !in s;
    s := s + {"application/x-yaml"};
    assert "application/yaml" !in s;
    s := s + {"application/yaml"};
    assert "application/problem+json" !in s;
    s := s + {"application/problem+json"};
    assert "application/x-www-form-urlencoded" !in s;
    s := s + {"application/x-www-form-urlencoded"};
    assert "multipart/form-data" !in s;
    s := s + {"multipart/form-data"};
    assert "application/octet-stream" !in s;
    s := s + {"application/octet-stream"};
    assert DefaultDecoders().Keys == s;
  }

  /** Both YAML names share the YAML decoder and both JSON names the JSON decoder. */
  lemma DefaultDecodersShared()
    ensures DefaultDecoders()["application/x-yaml"] == DefaultDecoders()["application/yaml"] == Yaml
    ensures DefaultDecoders()["application/json"] == DefaultDecoders()["application/problem+json"] == Json
  {
    assert "application/json"[12] == 'j' && "application/x-yaml"[12] == 'x' && "application/yaml"[12] == 'y';
    assert "application/problem+json"[12] == 'p' && "application/x-www-form-urlencoded"[12] == 'x' && "application/octet-stream"[12] == 'o';
    assert "multipart/form-data"[0] == 'm';
    assert |"application/x-yaml"| != |"application/x-www-form-urlencoded"|;
  }

  /** Every key of the default table is a bare media type, so a `Content-Type` with parameters still reaches it. */
  lemma DefaultKeysBare()
    ensures forall mt :: mt in DefaultDecoders() ==> ';' !in mt && ParseMediaType(mt) == mt
  {
    forall mt | mt in DefaultDecoders()
      ensures ';' !in mt
    {
      assert mt in {"text/plain", "application/json", "application/x-yaml", "application/yaml", "application/problem+json",
                    "application/x-www-form-urlencoded", "multipart/form-data", "application/octet-stream"};
    }
  }

  /** Registering into a merged map registers into its right-hand side. */
  lemma MergeUpdate(base: map<string, BodyDecoder>, registered: map<string, BodyDecoder>, k: string, v: BodyDecoder)
    ensures (base + registered)[k := v] == base + registered[k := v]
  {
  }

  /** The registry `bodyDecoders`: the decoder registered for each content type. */
  class Registry {
    var decoders: map<string, BodyDecoder>

    /** An empty registry, as the package variable starts. */
    constructor ()
      ensures decoders == map[]
    {
      decoders := map[];
    }

    /** `RegisteredBodyDecoder`: the decoder for exactly this content type, `None` for nil. */
    function RegisteredBodyDecoder(contentType: string): (r: Option<BodyDecoder>)
      reads this
      ensures r.Some? <==> contentType in decoders
      ensures r.Some? ==> r.value == decoders[contentType]
    {
      if contentType in decoders then Some(decoders[contentType]) else None
    }

    /** `RegisterBodyDecoder`: associates the decoder with the content type, replacing any earlier one. */
    method RegisterBodyDecoder(contentType: string, decoder: BodyDecoder)
      requires contentType != ""
      modifies this
      ensures decoders == old(decoders)[contentType := decoder]
      ensures RegisteredBodyDecoder(contentType) == Some(decoder)
      ensures forall k :: k != contentType ==> RegisteredBodyDecoder(k) == old(RegisteredBodyDecoder(k))
    {
      decoders := decoders[contentType := decoder];
    }

    /** `UnregisterBodyDecoder`: forgets the content type and nothing else. */
    method UnregisterBodyDecoder(contentType: string)
      requires contentType != ""
      modifies this
      ensures decoders == old(decoders) - {contentType}
      ensures RegisteredBodyDecoder(contentType) == None
      ensures forall k :: k != contentType ==> RegisteredBodyDecoder(k) == old(RegisteredBodyDecoder(k))
    {
      decoders := decoders - {contentType};
    }

    /** `init`: registers the package's eight decoders. */
    method RegisterDefaults()
      modifies this
      ensures decoders == old(decoders) + DefaultDecoders()
    {
      ghost var registered: map<string, BodyDecoder> := map[];
      assert decoders == old(decoders) + registered;
      RegisterBodyDecoder("text/plain", PlainText);
      MergeUpdate(old(decoders), registered, "text/plain", PlainText);
      registered := registered["text/plain" := PlainText];
      RegisterBodyDecoder("application/json", Json);
      MergeUpdate(old(decoders), registered, "application/json", Json);
      registered := registered["application/json" := Json];
      RegisterBodyDecoder("application/x-yaml", Yaml);
      MergeUpdate(old(decoders), registered, "application/x-yaml", Yaml);
      registered := registered["application/x-yaml" := Yaml];
      RegisterBodyDecoder("application/yaml", Yaml);
      MergeUpdate(old(decoders), registered, "application/yaml", Yaml);
      registered := registered["application/yaml" := Yaml];
      RegisterBodyDecoder("application/problem+json", Json);
      MergeUpdate(old(decoders), registered, "application/problem+json", Json);
      registered := registered["application/problem+json" := Json];
      RegisterBodyDecoder("application/x-www-form-urlencoded", UrlEncoded);
      MergeUpdate(old(decoders), registered, "application/x-www-form-urlencoded", UrlEncoded);
      registered := registered["application/x-www-form-urlencoded" := UrlEncoded];
      RegisterBodyDecoder("multipart/form-data", Multipart);
      MergeUpdate(old(decoders), registered, "multipart/form-data", Multipart);
      registered := registered["multipart/form-data" := Multipart];
      RegisterBodyDecoder("application/octet-stream", File);
      MergeUpdate(old(decoders), registered, "application/octet-stream", File);
      registered := registered["application/octet-stream" := File];
    }
  }
}
