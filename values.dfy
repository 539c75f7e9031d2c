/**
 * The data model shared by the decoders: decoded values, the read-only schema
 * tree, serialization methods, parameter locations and the structured errors.
 */
module Values {
  import opened Wrappers

  /**
   * A decoded value: what the source returns as `interface{}`.
   * `Null` is the untyped nil interface. `NilList` and `NilObject` are an
   * interface holding a nil `[]interface{}` or a nil `map[string]interface{}`:
   * Go compares those unequal to nil.
   */
  datatype Value =
    | Null
    | Bool(b: bool)
    | Number(x: real)
    | Str(s: string)
    | List(items: seq<Value>)
    | Object(fields: map<string, Value>)
    | NilList
    | NilObject

  /** The serialization styles of section 4.7.12.3 of the OpenAPI Specification 3.0.3, plus any other string a parameter may carry. */
  datatype Style =
    | Simple
    | Label
    | Matrix
    | Form
    | SpaceDelimited
    | PipeDelimited
    | DeepObject
    | OtherStyle(name: string)

  datatype SerializationMethod = SerializationMethod(style: Style, explode: bool)

  /** The four parameter locations (`in`). */
  datatype Location = Path | Query | Header | Cookie

  /**
   * A schema node as the decoders read it. `typ` is the schema's `type`
   * string (`""` when unset); `items`, `additionalProperties` and `notSchema` (`not`) are
   * the optional sub-schemas.
   */
  datatype Schema = Schema(
    typ: string,
    items: Option<Schema>,
    properties: map<string, Schema>,
    additionalPropertiesAllowed: Option<bool>,
    additionalProperties: Option<Schema>,
    allOf: seq<Schema>,
    anyOf: seq<Schema>,
    oneOf: seq<Schema>,
    notSchema: Option<Schema>)

  /** A schema with nothing set. */
  function EmptySchema(): Schema {
    Schema("", None, map[], None, None, [], [], [], None)
  }

  /** A schema of the given type and nothing else. */
  function TypeSchema(typ: string): Schema {
    EmptySchema().(typ := typ)
  }

  /** The types `parsePrimitive` accepts without panicking. */
  predicate IsPrimitiveType(typ: string) {
    typ == "integer" || typ == "number" || typ == "boolean" || typ == "string"
  }

  /** Kinds of `ParseError`. */
  datatype ErrorKind = KindOther | KindUnsupportedFormat | KindInvalidFormat

  /** A step of an error's location: an array index or an object property / part name. */
  datatype PathElem = Index(i: nat) | Key(name: string)

  /** The reasons the source gives, one constructor per message. */
  datatype Reason =
    | MissingPrefix(prefix: string)
    | InvalidInteger
    | InvalidNumber
    | MalformedProperties
    | UnsupportedContentType(mediaType: string)
    | UndefinedPart(part: string)
    | MalformedBody
    | FieldRequired
    | AnyOfFailed
    | OneOfMatched(count: nat)
    | OneOfRequired
    | NotNotImplemented
    | UnsupportedIn(name: string)
    | UnknownIn
    | MultipleValues
    | ExpectedContent
    | MultipleContent
    | NoContentSchema
    | UnmarshallingFailed
    | UnsupportedBodySchema
    | UnsupportedPropertySchema(property: string)

  datatype Error =
      /** `ParseError{Kind, Value, Reason}` */
    | ParseError(kind: ErrorKind, value: string, reason: Reason)
      /**
       * An error wrapped with the array index or property it happened at: the
       * source's `ParseError{path, Cause}` or its `fmt.Errorf("item %d: %w")` /
       * `fmt.Errorf("property %q: %w")` wrap, which the model does not tell apart.
       */
    | At(elem: PathElem, cause: Error)
      /** `SerializationMethodError{Style, Explode}` */
    | SerializationMethodError(serialization: SerializationMethod)
      /** `ValidationError{Field, Reason}` */
    | ValidationError(field: string, reason: Reason)
      /** `OpenAPISpecError{Field, Reason}` */
    | OpenAPISpecError(field: string, reason: Reason)
      /** A plain `errors.New` / `fmt.Errorf` error. */
    | Failure(reason: Reason)
      /** `fmt.Errorf("part %s: %s", ...)`: a multipart part's own error that is not a `ParseError`. */
    | PartFailure(part: string, cause: Error)
}
