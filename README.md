# soda request decoding, in Dafny

This project models the request-value decoding engine of `soda`, a Go
library that generates an OpenAPI 3 document from Go types and decodes
Fiber requests against it. The model covers these parts:

- **Splitting and primitive parsing** (module `Primitives`): `cutPrefix`,
  `propsFromString`, `parseArray`, `makeObject` and `parsePrimitive`.
- **Location decoders** (module `Locations`): the `DecodePrimitive`,
  `DecodeArray` and `DecodeObject` of the path, query, header and cookie
  decoders. Each turns a serialization style and an explode flag into a
  prefix and delimiters, or rejects the combination.
- **Composition** (module `Composition`): `decodeValue` over
  `allOf`/`anyOf`/`oneOf`/`not`, `decodeStyledParameter`, and
  `decodeContentParameter` with `defaultContentParameterDecoder`.
- **Request bodies**:
  - `BodyRegistry`: the registry of body decoders keyed by media type, as
    a class with a `map` field, with `parseMediaType`.
  - `Body`: the `decodeBody` dispatch.
  - `UrlEncodedBody` and `MultipartBody`: the url-encoded and multipart
    decoders.
- **Struct tags** (module `FieldTags`): `newFieldResolver` parsing an
  `oai:"..."` tag into key/value pairs, the field rules `required`, `name`
  and `shouldEmbed`, and the `resolveGeneric`, `resolveString` and
  `resolveArray` loops that copy tag values into a schema.
- **Small converters** (module `Utils`): `toBool`, `toUint`, `toInt`,
  `parseStringSlice`, `parseIntSlice`, `toCamelCase` and `toKebabCase`.
- **Routes** (module `Routes`): `fixPath`, which rewrites `/:id` into
  `/{id}`. `Handle` builds an operation's summary and ID, and the
  `Get`/`Post`/`Put`/`Patch`/`Delete` shortcuts call it.

Supporting modules:

- `Wrappers`: `Option` and `Result`.
- `Values`: the decoded value tree, the schema and the error kinds.
- `Text`: Go's `strings.Split`, `TrimSpace`, `Title`, `ToLower`,
  `IndexByte` and `ReplaceAll` on one character.
- `Order`: a fixed visiting order for Go map iteration.

How the model represents the source:

- **Loops.** A loop that builds a slice or map in the source is a
  `method` with a loop. It is proved equal to a specification function.
  Lemmas about that function state the promised property: key sets,
  last-write-wins, the first failing index, round trips.
- **Map iteration.** Go map iteration order is unspecified.
  - The decoders visit keys in one fixed (lexicographic) order. Only
    which error is reported, or which deepObject key wins a collision,
    depends on that order.
  - The tag resolvers take any unvisited key with `:|`. Their results are
    proved the same for every order.
- **Foreign code.** Foreign library calls become function-valued
  parameters: `strconv.ParseFloat`, `json.Unmarshal`, `yaml.Unmarshal`
  and `parseFloatSlice`.
- **Multipart parts.** The source decodes each multipart part by calling
  its own `decodeBody` on the whole request, which re-runs the multipart
  decoder on the whole form (the third Finding). The multipart decoder
  instead takes the decoding of one part as a parameter, the evidently
  intended behaviour; `MultipartBody.Redecode` is the as-written part
  decoder.
- **The request.** A request is an abstract record: path parameters, the
  query as an ordered list of arguments, headers, cookies, post
  arguments and the multipart form.
- **Panics.** Where the source panics, the model has a precondition:
  `parsePrimitive` on a non-primitive type, `RegisterBodyDecoder("")`,
  and `resolveArray` reading the items of an array schema that has none.

## Model

| member | source | states |
|---|---|---|
| Primitives.CutPrefix | decode_parameters.go:412-424 | An empty prefix gives the raw string back. Otherwise success iff the raw string starts with the prefix, and then prefix + result == raw. Failure is a ParseError of kind KindInvalidFormat carrying the raw value. |
| Primitives.ParseBool | decode_parameters.go:753 | `strconv.ParseBool`: an accepted spelling has one to five characters, and it reads true iff it starts with `1`, `t` or `T`. |
| Primitives.ParsePrimitive | decode_parameters.go:735-763 | An empty string is nil with no error for every type. `string` gives the raw text verbatim. `boolean` succeeds iff `strconv.ParseBool` accepts the text. `integer`/`number` succeed iff the float parser does. Every failure is KindInvalidFormat on the raw value. A non-primitive type with a non-empty string is excluded, because the source panics. |
| Primitives.ParsedItems | decode_parameters.go:716-730 | Success iff every piece parses. The result then has one item per piece, in order, each the piece parsed with the items schema. A failure names the first failing index i, with the item's error wrapped with that index (see "## Left out" for how the wrap is abstracted). |
| Primitives.ParsedItemsAbort | decode_parameters.go:718-726 | Once a piece fails, parsing further pieces keeps that same failure (the loop returns at the first error). |
| Primitives.ParseArray | decode_parameters.go:716-730 | The loop equals `ParsedItems` over all pieces. |
| Primitives.Props | decode_parameters.go:657-693 | Every failure is KindInvalidFormat on the source. With equal delimiters, success iff the split has an even number of pieces. With distinct delimiters, success iff every chunk splits into exactly two parts on the value delimiter. |
| Primitives.PropsFromString | decode_parameters.go:657-693 | The method equals `Props`. |
| Primitives.AlternatingLoop | decode_parameters.go:673-675 | The loop stores piece 2i under piece 2i+1's name, in order. |
| Primitives.AlternatingPropsKeys | decode_parameters.go:673-675 | The names are exactly the pieces at even positions. |
| Primitives.AlternatingPropsLastWins | decode_parameters.go:673-675 | Piece 2i maps to piece 2i+1 unless a later pair repeats the name: later duplicates overwrite. |
| Primitives.ChunkProps | decode_parameters.go:681-691 | Success iff each chunk splits into a name and a value. Failure is KindInvalidFormat on the source. |
| Primitives.ChunkLoop | decode_parameters.go:681-692 | The loop equals `ChunkProps` over all chunks. |
| Primitives.ChunkPropsKeys | decode_parameters.go:681-691 | The names are exactly the parts before the value delimiter. |
| Primitives.ChunkPropsLastWins | decode_parameters.go:690 | Each name maps to its own value unless a later chunk repeats it. |
| Primitives.ChunkPropsAbort | decode_parameters.go:683-689 | After a malformed chunk, further chunks keep the failure. |
| Primitives.ObjectOfKeys | decode_parameters.go:698-711 | A successful object's key set is exactly the schema's declared properties. Undeclared raw properties are dropped. |
| Primitives.ObjectOfValues | decode_parameters.go:700-708 | Each declared property holds its raw value parsed with its own schema. |
| Primitives.ObjectOfAbsent | decode_parameters.go:701 | A declared property missing from the raw properties becomes nil. |
| Primitives.ObjectOfFailure | decode_parameters.go:701-707 | A failure names a declared property whose value does not parse, and carries its error wrapped with that key (the wrap is abstracted, see "## Left out"). |
| Primitives.ObjectFromKeys | decode_parameters.go:700-708 | After visiting n declared names successfully, the object's keys are exactly those n names. |
| Primitives.ObjectFromValues | decode_parameters.go:701-708 | Each visited name holds its raw property parsed with its schema. |
| Primitives.ObjectFromFailure | decode_parameters.go:702-706 | A failure after n names is the first visited name whose value does not parse, with its error wrapped with that key (the wrap is abstracted, see "## Left out"). |
| Primitives.ObjectFromAbort | decode_parameters.go:702-707 | After a failing property, visiting more keeps the failure. |
| Primitives.MakeObject | decode_parameters.go:698-711 | The loop equals the specification function `ObjectOf`. |
| Locations.DecodePrimitive | decode_parameters.go:286-316 | An unsupported style is a SerializationMethodError. With a supported style, an absent value is nil. A non-nil result implies the value was present. The same holds for the query (431-445), header (545-555) and cookie (602-616) decoders. |
| Locations.DecodeArray | decode_parameters.go:318-356 | Equals `ArrayOf`. An unsupported style/explode pair is a SerializationMethodError. An absent value is a nil slice. A decoded list has one item per split piece. The same holds for the query (447-477), header (557-571) and cookie (618-632) decoders. |
| Locations.DelimitedRoundTrip | decode_parameters.go:351-355 | For a delimited style, prefix + items joined by the delimiter splits back into exactly those items. This requires no item to contain the delimiter. |
| Locations.JoinSplit | decode_parameters.go:355 | Splitting a join of delimiter-free items gives the items back. |
| Locations.PathSimpleArrayExample | decode_parameters.go:321-322 | In the simple style, the path value `3,4,5` gives the pieces `3`, `4`, `5` whatever the explode flag. |
| Locations.QueryArrayPieces | decode_parameters.go:447-477 | Query arrays: deepObject is rejected and no occurrences gives nil. Exploded, every occurrence is one item. Not exploded, only the first occurrence is split, on `,`, ` ` or `\|` by style, or into single characters for any other style. |
| Locations.Occurrences | decode_parameters.go:447-477 | The values of one name in the query, in order; never more than the arguments. |
| Locations.DelimitsChar | decode_parameters.go:355 | A one-character delimiter is safe for an item iff the item does not contain it. |
| Locations.ArgsMapLastWins | decode_parameters.go:488-493 | The exploded form object has a key iff it occurs in the query, with the value of its last occurrence. |
| Locations.CollectArgs | decode_parameters.go:489-492 | The loop equals `ArgsMap`. |
| Locations.GroupedOccurrences | decode_parameters.go:505-508 | Grouping the query keeps, for every key, exactly its occurrences in order. |
| Locations.GroupArgs | decode_parameters.go:505-508 | The grouping loop equals `Grouped`. |
| Locations.Grouped | decode_parameters.go:505-508 | Every grouped key has at least one value, so `values[0]` is always defined. |
| Locations.CloseFrom | decode_parameters.go:510 | The lazy capture's end is a `]`, with no `]` and no newline between the start and it. |
| Locations.DeepFromKeys | decode_parameters.go:509-516 | After n keys, a property is present iff one of those keys captures it. |
| Locations.DeepFromValues | decode_parameters.go:515 | A present property holds the first value of one of the keys that capture it. |
| Locations.CloseFromFinds | decode_parameters.go:510 | The lazy `(.+?)` capture ends at the first `]` when no newline or `]` precedes it. |
| Locations.DeepObjectCapture | decode_parameters.go:510-515 | The first capture of `name\[(.+?)\]` in a query key, with the parameter name read literally. Its contract is stated by `CaptureShape` and `DeepObjectKeyRoundTrip`. |
| Locations.CaptureShape | decode_parameters.go:510 | A capture is non-empty, has no newline, and `name[capture]` occurs in the key. |
| Locations.DeepObjectKeyRoundTrip | decode_parameters.go:510-515 | The key `name[c]` of a property c (no `]`, no newline) captures exactly c. |
| Locations.DeepObjectPropsKeys | decode_parameters.go:503-521 | The deepObject properties are exactly the captures of the keys present in the query. |
| Locations.DeepObjectPropsValues | decode_parameters.go:515 | Each property holds the first value of some query key with that capture. |
| Locations.CollectDeepObject | decode_parameters.go:503-516 | The grouping and capture loops together equal `DeepObjectProps`. |
| Locations.CaptureProps | decode_parameters.go:509-516 | The capture loop equals `DeepFrom` over the keys in order. |
| Locations.DecodeObject | decode_parameters.go:358-408 | Equals `ObjectValueOf`. An unsupported style/explode pair is a SerializationMethodError. A decoded object's keys are exactly the schema's properties. The same holds for the query (479-538), header (573-595) and cookie (634-652) decoders. |
| Composition.BoxArray | decode_parameters.go:265-267 | A decoded list stays a list. Under Go's boxing, even a failed or absent slice is a non-nil `interface{}`. The error is kept. |
| Composition.BoxObject | decode_parameters.go:269-271 | The same as `BoxArray`, for maps. |
| Composition.AllOfIs | decode_parameters.go:198-204 | allOf returns the first result that is nil or an error, or else the last branch's result. |
| Composition.AllOfInResults | decode_parameters.go:198-204 | allOf's answer is one of the branch results. |
| Composition.AnyOfFirstMatch | decode_parameters.go:208-212 | anyOf returns the first non-nil branch value with no error, whatever errors other branches had. |
| Composition.AnyOfNoMatch | decode_parameters.go:214-221 | With no non-nil branch, anyOf fails with ValidationError iff the parameter is required, and is nil otherwise. |
| Composition.AnyOfClean | decode_parameters.go:207-222 | anyOf never reports an error beside a value. |
| Composition.MatchedStep | decode_parameters.go:227-233 | Each branch adds one to `isMatched` iff its value is non-nil, and a non-nil value becomes the kept value. |
| Composition.MatchedOne | decode_parameters.go:227-235 | Exactly one non-nil branch means a count of 1, with that branch's value kept. |
| Composition.MatchedTwo | decode_parameters.go:227-236 | Two non-nil branches mean a count above 1. |
| Composition.MatchedNone | decode_parameters.go:227-233 | With no non-nil branch the count stays 0. |
| Composition.QueryAbcBranches | decode_parameters.go:207-222 | For anyOf [array of integer, string] on query `x=abc`, the array branch fails and the string branch alone decodes `abc`. |
| Composition.OneOfExactlyOne | decode_parameters.go:234-235 | oneOf with exactly one non-nil branch returns its value and no error. |
| Composition.OneOfSeveral | decode_parameters.go:236-241 | oneOf with two or more non-nil branches fails with a ValidationError carrying the count. |
| Composition.OneOfNone | decode_parameters.go:243-250 | oneOf with no non-nil branch fails iff required, and is nil otherwise. |
| Composition.NotAndUntyped | decode_parameters.go:253-278 | `not` gives OpenAPISpecError. A schema without composition, `not` or type gives nil with no error. |
| Composition.BoxPrimitive | decode_parameters.go:262-264 | A primitive failure is nil with its error; a success keeps its value. |
| Composition.NilAwareValueMeansSuccess | decode_parameters.go:192-279 | With absent results boxed as nil, a non-nil value never comes with an error. |
| Composition.Resolve | decode_parameters.go:192-279 | The specification of `decodeValue`, for either boxing: allOf, anyOf, oneOf and not in source order, then by type. Its properties are the allOf, anyOf and oneOf lemmas of this table. |
| Composition.DecodeValue | decode_parameters.go:192-279 | The recursive method equals `Resolve` with nil-aware boxing, the corrected half of the second Finding. With that boxing a value never comes with an error. |
| Composition.TypedNilShadowsAnyOf | decode_parameters.go:264-271 | As written, an `anyOf` of an integer array and a string given `x=abc` answers a nil slice with no error. Nil-aware boxing answers the string `abc`. |
| Composition.DecodeAllOf | decode_parameters.go:195-205 | The allOf loop equals `AllOf` of the branch results. |
| Composition.DecodeAnyOf | decode_parameters.go:207-222 | The anyOf loop equals `AnyOf` of the branch results. |
| Composition.DecodeOneOf | decode_parameters.go:224-251 | The oneOf loop with its counter equals `OneOf` of the branch results. |
| Composition.DecodeStyledParameter | decode_parameters.go:153-189 | An unknown `in` gives OpenAPISpecError. A path parameter without route parameters, or a query parameter with an empty query, is nil with no error. Otherwise the result is `decodeValue` at that location with nil-aware boxing, so a value never comes with an error. |
| Composition.StyledTypedNil | decode_parameters.go:153-189 | On the anyOf counterexample, the styled parameter as written (Go boxing) is a nil slice with no error, and with nil-aware boxing it is the string `abc`. |
| Composition.UnmarshalAll | decode_parameters.go:126-139 | Defined iff every value unmarshals. Item i is then the unmarshalled value i, in order. |
| Composition.DefaultContentParameterDecoder | decode_parameters.go:73-142 | The method equals `ContentValuesOf`: the multiple-values, missing-content and content-count checks in source order, then the `Content.Get("application/json")` lookup, then one value as is or several as a list. |
| Composition.JsonMediaType | decode_parameters.go:105 | `Content.Get("application/json")` finds an entry iff `application/json`, `application/*` or `*/*` is present, and the exact media type wins over the wildcards. |
| Composition.ContentSuccess | decode_parameters.go:73-142 | Success implies these facts. Several values occur only in the query. The content has exactly one key, which is `application/json`, `application/*` or `*/*`, and that entry's schema is returned. One value is that value unmarshalled. Several are a list of the same length, item by item. |
| Composition.ContentKeyDecides | decode_parameters.go:95-113 | With one content entry and an allowed number of values, the error is "no content schema found" iff the entry's key is none of `application/json`, `application/*` and `*/*`. |
| Composition.DecodeContentParameter | decode_parameters.go:19-70 | An unknown `in` is an OpenAPISpecError. An absent value fails iff required. Otherwise the result is `defaultContentParameterDecoder` on the values found. |
| BodyRegistry.Registry.constructor | request_body_decoder.go:21-23 | The registry starts with no decoder registered. |
| BodyRegistry.ParseMediaType | request_body_decoder.go:61-67 | Without `;` the input is returned unchanged. Otherwise the result is the text before the first `;`. The result never contains `;`. |
| BodyRegistry.ParseMediaTypeIdempotent | request_body_decoder.go:61-67 | Applying it twice is applying it once. |
| BodyRegistry.MediaTypeWithParameters | request_body_decoder.go:61-67 | A media type followed by `;parameters` gives the media type back. |
| BodyRegistry.JsonWithCharset | request_body_decoder.go:61-67 | `application/json; charset=utf-8` gives `application/json`. |
| BodyRegistry.DefaultDecodersCount | request_body_decoder.go:93-102 | `init` registers exactly eight media types. |
| BodyRegistry.DefaultDecodersShared | request_body_decoder.go:96-98 | Both YAML names share the YAML decoder. `application/json` and `application/problem+json` share the JSON decoder. |
| BodyRegistry.DefaultKeysBare | request_body_decoder.go:93-102 | Every default key is a bare media type, fixed by `parseMediaType`. |
| BodyRegistry.Registry.RegisteredBodyDecoder | request_body_decoder.go:29-31 | The lookup is present iff the content type is registered, and then is its decoder. |
| BodyRegistry.Registry.RegisterBodyDecoder | request_body_decoder.go:38-46 | An empty content type is excluded, because the source panics. Afterwards the lookup gives the new decoder, replacing any earlier one, and every other lookup is unchanged. |
| BodyRegistry.Registry.UnregisterBodyDecoder | request_body_decoder.go:52-57 | An empty content type is excluded. Afterwards the lookup is absent and every other lookup is unchanged. |
| BodyRegistry.Registry.RegisterDefaults | request_body_decoder.go:93-102 | The registry becomes the earlier one overridden by the eight defaults. |
| Body.DecodeBody | request_body_decoder.go:71-91 | An unregistered media type is a ParseError of kind KindUnsupportedFormat naming the media type. Otherwise the result is exactly what the registered decoder returns. |
| Body.JsonDispatch | request_body_decoder.go:78-90 | With the default table, `application/json; charset=utf-8` is decoded by the JSON decoder. |
| UrlEncodedBody.EncodingMethod | request_body_decoder.go:151-154 | Without an encoding the method is form/explode. An encoding's style and explode are used when set. |
| UrlEncodedBody.UrlEncodedCheckSpec | request_body_decoder.go:128-141 | A non-object schema is rejected. Otherwise the check passes iff no property is an object or an array of non-primitive items, and a failure names such a property. |
| UrlEncodedBody.CheckProperties | request_body_decoder.go:131-141 | The checking loop equals `CheckFrom` over the properties. |
| UrlEncodedBody.CheckFromSpec | request_body_decoder.go:131-141 | After n properties, the check passes iff none is rejected; a failure names a rejected property. |
| UrlEncodedBody.FieldsOfKeys | request_body_decoder.go:144-163 | A decoded body has exactly one entry per declared property. |
| UrlEncodedBody.FieldsOfValues | request_body_decoder.go:146-160 | Each entry is that property decoded by `decodeValue` with required=false and its encoding's method. |
| UrlEncodedBody.FieldsOfErr | request_body_decoder.go:156-159 | A failure is the error of some property's decoding. |
| UrlEncodedBody.FieldsFromOk | request_body_decoder.go:146-161 | After n fields without error, each field holds its decoded value and no other key appears. |
| UrlEncodedBody.FieldsFromErr | request_body_decoder.go:156-159 | A failure after n fields is the error of one of them. |
| UrlEncodedBody.FieldsOfValue | request_body_decoder.go:146-161 | Every declared property of a decoded body holds its own decoding, which had no error. |
| UrlEncodedBody.UrlEncodedFields | request_body_decoder.go:124-164 | A decoded url-encoded body passed the check and is an object with exactly the declared properties, each decoded. |
| UrlEncodedBody.UrlEncodedFailure | request_body_decoder.go:143-163 | A failure after the check is some property's decoding error. |
| UrlEncodedBody.UrlEncodedBodyDecoder | request_body_decoder.go:124-164 | The method equals `UrlEncodedOf`. |
| UrlEncodedBody.DecodeFields | request_body_decoder.go:146-161 | The field loop equals `FieldsOf`. |
| MultipartBody.ResolvePartSpec | request_body_decoder.go:192-215 | A declared part uses its schema, or its item schema for an array. An undeclared part is skipped iff additional properties are allowed. Otherwise it is decoded only when additionalProperties declares it, and is undefined when the flag is false or there is no such schema or name. |
| MultipartBody.WrapPartError | request_body_decoder.go:218-223 | A ParseError from a part is wrapped at path [name]. Any other error becomes `part name: error`. |
| MultipartBody.PartsOfAt | request_body_decoder.go:178-225 | When every part decodes, a name has collected values iff it is in the form and resolves to a schema. It then holds exactly the value the part decoder given returned (each part on its own, the corrected half of the third Finding). |
| MultipartBody.PartsFromOk | request_body_decoder.go:178-225 | After n distinct parts without error, exactly the resolving names have values: one value each, the one the part decoder returned. |
| MultipartBody.PartsFromErr | request_body_decoder.go:178-225 | A failure after n parts is caused by one of them. |
| MultipartBody.MultipartFields | request_body_decoder.go:166-251 | A decoded multipart body is an object. Its keys are the properties (declared or from additionalProperties) with a part that resolves. An array property holds the list of its values and any other property the first value. The values are the part decoder's, each part decoded on its own (the third Finding's corrected half). |
| MultipartBody.MultipartFailure | request_body_decoder.go:178-225 | A failure after the form was read names a part that is undefined or did not decode. |
| MultipartBody.MultipartBodyDecoder | request_body_decoder.go:166-251 | The method equals `MultipartOf`: non-object schemas and form errors first, then parts, then assembly. Parts are decoded by the part decoder given, the corrected half of the third Finding. |
| MultipartBody.RedecodeNeedsObjectParts | request_body_decoder.go:166-225 | With the as-written part decoder, a multipart body decodes only if every part it decodes with a schema has an object schema. |
| MultipartBody.RedecodeSome | request_body_decoder.go:218 | As written, a part with schema s is the whole form decoded by the multipart decoder against s. |
| MultipartBody.AliceRedecodeFails | request_body_decoder.go:166-223 | As written, `name=alice` against object{name: string} fails with `part name: unsupported schema of request body`. |
| MultipartBody.AlicePartOnItsOwn | request_body_decoder.go:178-251 | Decoding each part on its own, the same form gives the object {name: v}, with v that part's value. |
| Body.MultipartPartRedecodes | request_body_decoder.go:71-91 | When the request's media type selects the multipart decoder, `decodeBody` of the whole request with a part's schema is exactly the as-written part decoder `Redecode`. |
| MultipartBody.DecodeParts | request_body_decoder.go:178-225 | The part loop equals `PartsFrom`. |
| MultipartBody.CopyProperties | request_body_decoder.go:227-235 | Each copy loop gives `into + from`: additionalProperties' schemas override declared ones. |
| MultipartBody.CopiedAll | request_body_decoder.go:227-235 | Copying every key of a map over another gives the map union, the copied side winning. |
| MultipartBody.AssembledAll | request_body_decoder.go:237-248 | Assembling in the fixed order gives `Assemble`. |
| MultipartBody.AssembleObject | request_body_decoder.go:237-248 | The assembly loop equals `Assemble`: properties without parts are omitted. |
| FieldTags.ResolverOf | field_resolver.go:16-40 | Without an `oai` tag: not ignored, no pairs. With one: ignored iff its first `;` item is `-`, and an ignored field has no pairs. |
| FieldTags.NewFieldResolver | field_resolver.go:16-40 | The loop equals `ResolverOf`: the tag items' pairs in order, later keys overwriting. |
| FieldTags.SplitTagItem | field_resolver.go:30-36 | One item trimmed and split on `=`. Exactly two parts give a trimmed key and value, and otherwise the trimmed first part maps to "". |
| FieldTags.MapOfKeys | field_resolver.go:29-37 | The parsed keys are exactly the keys of the items' pairs. |
| FieldTags.MapOfLastWins | field_resolver.go:29-37 | An item's value is kept unless a later item repeats its key. |
| FieldTags.TagPairBare | field_resolver.go:35 | A trimmed item without `=` is a bare key with an empty value. |
| FieldTags.TagPairKeyValue | field_resolver.go:31-33 | `key=value` with one `=` gives exactly (key, value). |
| FieldTags.Untagged | field_resolver.go:16-22 | An untagged field is not ignored, has no pairs, is required iff not a pointer, and is embedded iff anonymous. |
| FieldTags.IgnoredTag | field_resolver.go:23-27 | A tag starting with the item `-` ignores the field: no pairs and never embedded. |
| FieldTags.SingleItemTag | field_resolver.go:28-37 | A one-item tag other than `-` gives exactly that item's pair. |
| FieldTags.Required | field_resolver.go:54-63 | Without a `required` pair: true iff the field is not a pointer. With one: its `toBool`. |
| FieldTags.RequiredBareTag | field_resolver.go:59-61 | The bare tag `required` makes any field required, pointer or not, since `toBool("")` is true. |
| FieldTags.RequiredFalseTag | field_resolver.go:59-61 | The tag `required=false` makes the field optional. |
| FieldTags.Name | field_resolver.go:65-73 | The Go name when set. Otherwise the JSON name up to its first comma, which holds no comma and is the whole JSON tag when that has none. |
| FieldTags.ShouldEmbed | field_resolver.go:75-77 | True iff the field is anonymous and not ignored. |
| FieldTags.ResolveGeneric | field_resolver.go:79-100 | Title, description and type are the tag values verbatim when present. The five flags are `toBool` of theirs. Every other keyword is unchanged, whatever order the keys are visited in. |
| FieldTags.AnnotateTag | field_resolver.go:81-98 | One visited key sets exactly the keyword it names. |
| FieldTags.ResolveString | field_resolver.go:103-127 | minLength and maxLength are `toUint` of the tag, maxLength a fresh pointer. pattern is verbatim. format is set only when one of the seven known formats. The `enum` items split on `,` are appended in order. default and example are strings. Everything else is unchanged, in any visiting order. |
| FieldTags.AppendEnum | field_resolver.go:118-120 | The loop appends the `,`-separated items, in order, to the existing enum. |
| FieldTags.StringEnumItems | field_resolver.go:118-120 | There is one enum item per comma plus one, and item i is piece i. |
| FieldTags.ResolveArray | field_resolver.go:174-204 | minItems is `toUint` and maxItems a pointer to it. uniqueItems is `toBool`. default and example become the parsed slice, and enum a one-element list wrapping it. Everything else is unchanged, in any visiting order. |
| FieldTags.ParseItems | field_resolver.go:184-192 | By items type: the string pieces, the integers of the corrected slice parse (pieces `strconv.Atoi` rejects are dropped, see the first Finding), the float parse, or nil for any other type. |
| Utils.ToBool | utils.go:38-44 | `toBool("")` is true. Otherwise true iff `strconv.ParseBool` reads true, so unparseable text is false. |
| Utils.ToUint | utils.go:46-49 | At most 2^64-1. A syntax error gives 0, a range error saturates at 2^64-1, and a valid decimal gives its value. |
| Utils.ToInt | utils.go:51-54 | Always within the 64-bit signed range, and 0 for the empty string. `ToIntDigits`, `ToIntNonDigit` and `ToIntNotNumber` give its value on every other input. |
| Utils.ToUintDecimal | utils.go:46-49 | The decimal form of any n ≤ 2^64-1 reads back as n. |
| Utils.ToIntDecimal | utils.go:51-54 | The decimal form of any 64-bit integer reads back as itself, and Atoi accepts it. |
| Utils.ToUintNonDigit | utils.go:46-49 | A string of at most 19 characters with a non-digit gives 0. |
| Utils.ToIntNotNumber | utils.go:51-54 | A string whose digits part has a non-digit gives 0, and Atoi rejects it. |
| Utils.ToIntDigits | utils.go:51-54 | A signed run of digits gives its decimal value clamped to the 64-bit range (saturation on overflow), and Atoi accepts it iff no clamping was needed. |
| Utils.ToIntNonDigit | utils.go:51-54 | With the first non-digit after the sign at position p, the result is 0 when the digits before p fit in 64 bits (a syntax error comes first), and the bound of the sign when they do not (a range error comes first). Atoi rejects it. |
| Utils.ToIntTrailingLetter | utils.go:51-54 | `"12a"` gives 0, and Atoi rejects it. |
| Utils.ScanAllDigits | utils.go:46-54 | On digits only, `strconv.ParseUint` gives the plain decimal value, or a range error once that exceeds 2^64-1. |
| Utils.ScanPrefixRange | utils.go:46-54 | Once a prefix overflows, the whole string is a range error. |
| Utils.ScanDecimal | utils.go:46-49 | Scanning the decimal form of n ≤ 2^64-1 gives n. |
| Utils.ScanNonDigit | utils.go:46-49 | A non-digit anywhere in a string of at most 19 characters is a syntax error. |
| Utils.ParseStringSlice | utils.go:11-18 | The pieces split on one space, empty pieces kept. Their count is the number of spaces plus one, they join back to the input, and none holds a space. |
| Utils.StringSliceExamples | utils.go:11-18 | `"1 2 3"` gives `["1","2","3"]` and `"abc"` gives `["abc"]`. |
| Utils.ParseIntSliceAsWritten | utils.go:20-27 | One `toInt` per space-separated piece, in order, with 0 for non-numbers. The count is spaces plus one. |
| Utils.IntSliceKeepsNonNumbers | utils.go:20-27 | As written, `"12 fake 23"` gives [12, 0, 23], not the expected [12, 23]. |
| Utils.IntSliceKeepsEmpty | utils.go:20-27 | As written, `" 12 "` gives [0, 12, 0], not the expected [12]. |
| Utils.NumbersOf | utils.go:20-27 | Never longer than the pieces. Every number comes from a piece Atoi accepts. When every piece is a number it is one `toInt` per piece. |
| Utils.ParseIntSlice | utils.go:20-27 | The loop equals `NumbersOf` of the pieces. |
| Utils.IntSliceNumbersExamples | utils.go:20-27 | `"1 2 3"` gives [1, 2, 3] and `"123"` gives [123]. |
| Utils.IntSliceDropsNonNumber | utils.go:20-27 | `"12 fake 23"` gives [12, 23]. |
| Utils.IntSliceDropsEmpty | utils.go:20-27 | `" 12 "` gives [12]. |
| Utils.ToCamelCase | utils.go:72-75 | The result has no space and no dash. |
| Utils.CamelCaseIdempotent | utils.go:72-75 | Applying `toCamelCase` twice is applying it once. |
| Utils.CamelCaseExamples | utils.go:72-75 | `"camel-case"` gives `"CamelCase"`, which stays unchanged. |
| Utils.ToKebabCase | utils.go:66-70 | The result has no upper-case ASCII letter. |
| Utils.KebabCaseFixed | utils.go:66-70 | A name without capitals is unchanged. |
| Utils.FirstCapsNoUpper | utils.go:62 | `(.)([A-Z][a-z]+)` leaves a string without capitals unchanged. |
| Utils.AllCapsNoUpper | utils.go:63 | `([a-z0-9])([A-Z])` leaves a string without capitals unchanged. |
| Utils.KebabCaseIdempotent | utils.go:66-70 | Applying `toKebabCase` twice is applying it once. |
| Utils.FirstCapsSkip | utils.go:62 | Without capitals in positions 1..k-1, no `(.)([A-Z][a-z]+)` match starts before k-1. |
| Utils.AllCapsSkip | utils.go:63 | Without capitals in positions 1..k-1, no `([a-z0-9])([A-Z])` match starts before k-1. |
| Utils.KebabCaseExamples | utils.go:66-70 | `"CamelCase"` gives `"camel-case"`, which stays unchanged. |
| Utils.TitleKeepsChar | utils.go:74 | `strings.Title` neither adds nor removes a non-letter character. |
| Utils.TitledFixed | utils.go:74 | `strings.Title` leaves already title-cased text unchanged. |
| Text.SplitJoin | utils.go:12 | Joining the pieces of `strings.Split` with the separator gives the input back. |
| Text.SplitPiecesAvoidSeparator | utils.go:12 | No piece of `strings.Split` contains the separator. |
| Text.SplitCharCount | utils.go:12 | Splitting on one character gives one piece more than its occurrences. |
| Text.Split | utils.go:12 | On a non-empty separator there is at least one piece. `SplitJoin`, `SplitPiecesAvoidSeparator` and `SplitCharCount` state what the pieces are. |
| Text.Explode | decode_parameters.go:474 | An empty separator gives one piece per character, in order. |
| Text.TrimSpace | field_resolver.go:30 | The result is a slice `s[i..j]` with only white space cut on either side, and it neither starts nor ends with white space: it is `s` without its outer white space. |
| Text.TitleFrom | soda.go:164 | `strings.Title` keeps the length. |
| Text.Title | soda.go:164 | `strings.Title` keeps the length and upper-cases the first character. |
| Text.TitleChars | soda.go:164 | Character by character, `strings.Title` upper-cases exactly the characters that follow a separator (and the first), and keeps every other one. |
| Text.IndexByte | request_body_decoder.go:62 | -1 when the character is absent, and otherwise its first position. |
| Text.IndexOf | decode_parameters.go:682 | -1 when the separator does not occur, and otherwise its first occurrence. |
| Text.ToLower | utils.go:69 | Same length, each character lower-cased. |
| Text.ReplaceChar | utils.go:73 | Same length, each occurrence of one character replaced by the other and nothing else changed. |
| Routes.FixPathComplete | soda.go:171-175 | After `fixPath`, no `/:` followed by a letter or digit is left: every match was rewritten. |
| Routes.FixPathUnchanged | soda.go:171-175 | A path without a match is returned unchanged. |
| Routes.FixPathChanges | soda.go:171-175 | A path with a match is changed, so `fixPath` is the identity exactly on paths without matches. |
| Routes.FixPathIdempotent | soda.go:171-175 | Rewriting twice is rewriting once. |
| Routes.FixPathPrefix | soda.go:171-175 | A prefix without `:` that does not end in `/` is copied unchanged, and the rest is rewritten on its own. |
| Routes.FixPathParam | soda.go:171-175 | `/:name` for a run of letters and digits becomes `/{name}`: the greedy `+` takes the whole run. |
| Routes.FixPathExample | soda.go:171-175 | `/users/:id` is registered as `/users/{id}`. |
| Routes.AlnumRun | soda.go:171 | The length of the leading run of letters and digits that `[a-zA-Z0-9]+` takes greedily. |
| Routes.FixPath | soda.go:171-175 | The left-to-right `ReplaceAllString` of `/:([0-9a-zA-Z]+)` with `/{${1}}`. Its contract is stated by the `FixPath` lemmas of this table. |
| Routes.Handle | soda.go:159-169 | The summary is method + " " + path. The operation ID is the title-cased non-empty `/`-segments followed by the method. The operation is registered under `fixPath(path)`, which has no `/:name` left. The ID has no `/` unless the method has one. |
| Routes.OperationIdNoSlash | soda.go:162-167 | The operation ID drops every `/` of the path. |
| Routes.OperationIdEndsWithMethod | soda.go:167 | The operation ID ends with the method. |
| Routes.OperationIdExample | soda.go:159-167 | `GET /users/:id` gets the operation ID `Users:IdGET`, since `:` separates words for `strings.Title`. |
| Routes.Get | soda.go:144-146 | Registers with method `GET`, the rewritten path and summary `GET path`. |
| Routes.Post | soda.go:147-149 | Registers with method `POST`. |
| Routes.Put | soda.go:150-152 | Registers with method `PUT`. |
| Routes.Patch | soda.go:153-155 | Registers with method `PATCH`. |
| Routes.Delete | soda.go:156-158 | Registers with method `DELETE`. |

## Left out

- **Floating point.** `strconv.ParseFloat` in `parsePrimitive`, `toFloat`, `parseFloatSlice` and `resolveNumeric` are out. Number parsing is a partial-function parameter: only its success or failure and its value are used. `resolveNumeric` (field_resolver.go:130-171) is not modelled.
- `reflectSchemas` (field_resolver.go:42-52) is not modelled. It is the dispatch to the resolvers, and its numeric branch is `resolveNumeric`.
- **Foreign decoders.** JSON and YAML unmarshalling, in content parameters and the JSON/YAML body decoders, are function parameters.
- MultipartBody.MultipartBodyDecoder: decodes each part with a part-decoder parameter, the corrected half of the third Finding. As written, request_body_decoder.go:218 calls `decodeBody` on the whole request, whose `multipart/form-data` media type runs the multipart decoder again on the whole form with the part's schema. So every decoded part whose schema is not an object fails with `part <name>: unsupported schema of request body` (`RedecodeNeedsObjectParts`), and an array property without an items schema panics. `Body.DecodeBody` passes the part decoder of its environment through.
- MultipartBody.MultipartFields: holds for the part decoder given; with the as-written `Redecode`, a body with a non-object part never decodes, as above.
- MultipartBody.PartsOfAt: the same; the values are those of the part decoder given.
- MultipartBody.Redecode: a nil part schema, on which the source panics, is left to the deeper decoder.
- Primitives.ParsedItems: an item's error is wrapped as `At(Index(i), e)`, which stands for both branches of decode_parameters.go:720-725. Which branch runs depends on `errors.Is(err, ParseError{})` and so on the `ParseError` type and any `Is` method it has; that declaration is not part of this model. `parsePrimitive` returns a `*ParseError`, and `ParseError` holds a slice, so without an `Is` method the test is false and the source returns `fmt.Errorf("item %d: %w")`. With one, parseArray's `ParseError` would carry the never-assigned `v` and drop the item's own error; the model keeps the item's error.
- Primitives.ObjectFrom: the same abstraction for properties (decode_parameters.go:702-706): `At(Key(name), e)` stands for `ParseError{path: [name], Cause: err}` or `fmt.Errorf("property %q: %w")`.
- Primitives.ObjectOfFailure: states the failure as `At(Key(k), e)`, the abstracted wrap above.
- Primitives.ObjectFromFailure: the same abstracted wrap.
- **Transport.** Fiber/fasthttp request accessors are replaced by an abstract request record. How `PeekMulti`, `Cookie` and the multipart reader obtain their values is not modelled.
- **Serialization defaults.** kin-openapi's `Parameter.SerializationMethod` is external: a parameter carries its resolved style and explode flag. Only the default of a missing encoding (form, exploded) is modelled. For a parameter with an unknown `in`, the source calls `SerializationMethod` first, and kin-openapi's own error for that `in` is returned; the model reports `OpenAPISpecError` with `UnsupportedIn`, the error of decode_parameters.go:180-185.
- **Concurrency.** The registry is modelled sequentially; it is not thread-safe in the source either.
- **Map order.** Go's unspecified map iteration order is replaced by one fixed order in the decoders. When deepObject keys capture the same property, or several properties fail, the model picks one candidate where Go may pick another.
- Registry.RegisterBodyDecoder: a nil decoder cannot be expressed, since `BodyDecoder` has no nil value, so that panic is not modelled.
- Composition.DecodeValue: requires every branch of every composition to be free of the `parsePrimitive` panic. The source panics only on branches it reaches, and `allOf`/`anyOf` may stop early, so this precondition is stronger than the source's.
- Composition.DecodeStyledParameter: inherits the `DecodeValue` precondition above, for the location chosen.
- FieldTags.ResolveArray: requires an items schema whenever a `default`, `enum` or `example` tag is present, because the source dereferences it and would panic.
- FieldTags.ResolveArray: integer `default`, `enum` and `example` values use the corrected slice parse of the first Finding, which drops the pieces `strconv.Atoi` rejects. As written, field_resolver.go:189 calls `parseIntSlice`, which keeps such a piece as 0, so `default:"1 x 2"` gives [1, 0, 2] in the source and [1, 2] here.
- FieldTags.ParseItems: the same corrected integer parse; the as-written parse is `Utils.ParseIntSliceAsWritten`.
- Composition.DecodeStyledParameter: decodes with nil-aware boxing, the corrected half of the second Finding. As written, an absent or failed array or object is a non-nil typed nil, returned beside its error, and it can shadow a later anyOf branch; `StyledParameterOf` with `GoInterface` boxing and `StyledTypedNil` state the as-written result.
- UrlEncodedBody.FieldsOfValues: each field is decoded with nil-aware boxing, as above. As written, an absent array or object field is stored as a typed-nil slice or map rather than nil, and an anyOf field can be shadowed as in the second Finding.
- UrlEncodedBody.UrlEncodedBodyDecoder: the same nil-aware boxing, through `FieldsOf`.
- Locations.DeepObjectCapture: the parameter name is read literally. The source builds the pattern `name\[(.+?)\]` without escaping the name, so a name with regular-expression metacharacters behaves differently there: `a.b` also matches the key `axb[c]`, `a+` does not match `a+[c]`, and a name with an unbalanced `(` makes `regexp.MustCompile` panic. The model assumes names without metacharacters.
- Locations.CaptureShape: holds for the name read literally, as above; for names with metacharacters the source's match need not contain the name.
- Locations.DeepObjectKeyRoundTrip: holds for the name read literally, as above; for a name such as `a+` the source captures nothing from `a+[c]`.
- Composition.JsonMediaType: a content entry whose media type or schema reference is nil is not modelled, since the model's content map holds schemas; the source would skip a nil media type and panic on a nil schema reference.
- **Strings.** `TrimSpace` removes Go's full `unicode.IsSpace` set, and `strings.Title` treats characters beyond ASCII as separators exactly when they are white space, as Go does. Only the case mapping is narrowed: `strings.Title` upper-cases and `strings.ToLower` lower-cases ASCII letters only, so Unicode upper, lower and title case are not modelled.
- **Integers.** `toInt` follows 64-bit `strconv.Atoi`. The platform's `int` width is taken to be 64 bits.
- **Routes.** `newOperation`, `SetSummary` and `SetOperationID` (operation.go) are not part of this model. `Handle` returns the registered path, method, summary and operation ID as a value. The handlers and the Fiber route registration are left out.
- `getHandlerName` (utils.go:77-83) is not modelled: it depends on runtime function names.
- operation.go, decoder.go, schema.go, parameter.go, generator.go, resolver.go and renders.go are not part of this model.

## Findings

| source | as written | input that shows it | evidently intended | confidence | as-written member | corrected member |
|---|---|---|---|---|---|---|
| utils.go:20-27 | `parseIntSlice` appends `toInt` of every piece, so a non-number or empty piece becomes 0 | `"12 fake 23"` gives [12, 0, 23]; `" 12 "` gives [0, 12, 0] | The unit tests in utils_test.go expect [12, 23] and [12]: pieces `strconv.Atoi` rejects are dropped | high, not executed | Utils.IntSliceKeepsNonNumbers | Utils.IntSliceDropsNonNumber |
| decode_parameters.go:264-271 | The `decodeFn` closures return the `[]interface{}` / `map[string]interface{}` of `DecodeArray`/`DecodeObject` as `interface{}`, so a failed or absent nil slice or map is a non-nil interface; `anyOf` then takes it as a match and drops the error | anyOf [array of integer, string], query `x=abc`, not required: the array branch fails, yet anyOf answers a nil slice with no error and never tries the string branch | An absent or failed array/object is nil, so anyOf goes on to the string branch and answers `abc` | high, not executed | Composition.TypedNilShadowsAnyOf | Composition.DecodeValue |
| request_body_decoder.go:218 | Each part is decoded by `decodeBody(c, valueSchema, subEncFn)` on the whole request; its media type selects `multipartBodyDecoder` again, which decodes the whole form against the part's schema and rejects any schema that is not an object (lines 167-168) | the form `name=alice` with schema object{name: string}: the source fails with `part name: unsupported schema of request body` | Each part is decoded on its own with its property's schema, giving {name: "alice"} | high, not executed | MultipartBody.AliceRedecodeFails | MultipartBody.AlicePartOnItsOwn |
