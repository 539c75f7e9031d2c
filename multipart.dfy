/**
 * `multipartBodyDecoder` (request_body_decoder.go): each part of a
 * multipart form is decoded with the schema of the property it names, and
 * the object is assembled from the decoded parts.
 */
module MultipartBody {
  import opened Wrappers
  import opened Order
  import opened Values

  /**
   * The decoding of one part with its schema (`None` for a nil items schema).
   * The decoders below take it as a parameter: decoding each part on its own
   * is what the multipart decoder evidently intends, while the source's own
   * call re-decodes the whole request (see `Redecode`).
   */
  type PartDecoder = (string, Option<Schema>) -> Result<Value, Error>

  /** Where a form part goes: skipped, undefined, or decoded with a schema (`None` for a nil items schema). */
  datatype PartTarget = Skip | Undefined | Target(schema: Option<Schema>)

  /** A part of an array-typed property is decoded with the items schema. */
  function TargetOf(valueSchema: Schema): PartTarget {
    if valueSchema.typ == "array" then Target(valueSchema.items) else Target(Some(valueSchema))
  }

  /** How `multipartBodyDecoder` resolves the part `name` against the body schema. */
  function ResolvePart(schema: Schema, name: string): PartTarget {
    if name in schema.properties then TargetOf(schema.properties[name])
    else if schema.additionalPropertiesAllowed.Some? then
      if schema.additionalPropertiesAllowed.value then Skip else Undefined
    else if schema.additionalProperties.None? then Undefined
    else if name !in schema.additionalProperties.value.properties then Undefined
    else TargetOf(schema.additionalProperties.value.properties[name])
  }

  /**
   * A declared part is decoded with its property's schema; an undeclared
   * part is skipped exactly when additional properties are allowed, and is
   * otherwise decoded only when additional properties are unspecified and
   * the additionalProperties schema declares it.
   */
  lemma ResolvePartSpec(schema: Schema, name: string)
    ensures ResolvePart(schema, name) == Skip <==>
      name !in schema.properties && schema.additionalPropertiesAllowed == Some(true)
    ensures ResolvePart(schema, name).Target? <==>
      name in schema.properties
      || (schema.additionalPropertiesAllowed.None? && schema.additionalProperties.Some?
          && name in schema.additionalProperties.value.properties)
    ensures name in schema.properties ==>
      var p := schema.properties[name];
      ResolvePart(schema, name).schema == if p.typ == "array" then p.items else Some(p)
  {
  }

  /** The values collected so far for `name`. */
  function Collected(values: map<string, seq<Value>>, name: string): seq<Value> {
    if name in values then values[name] else []
  }

  /** A part's error, tagged with the part name: a `ParseError` gets the name as its path. */
  function WrapPartError(name: string, e: Error): (r: Error)
    ensures e.ParseError? || e.At? ==> r == At(Key(name), e)
    ensures !(e.ParseError? || e.At?) ==> r == PartFailure(name, e)
  {
    if e.ParseError? || e.At? then At(Key(name), e) else PartFailure(name, e)
  }

  /** The values of the parts `names[..n]`, or the first error. */
  function PartsFrom(schema: Schema, names: seq<string>, n: nat, decodePart: PartDecoder): Result<map<string, seq<Value>>, Error>
    requires n <= |names|
  {
    if n == 0 then Ok(map[])
    else
      match PartsFrom(schema, names, n - 1, decodePart)
      case Err(e) => Err(e)
      case Ok(values) =>
        var name := names[n - 1];
        match ResolvePart(schema, name)
        case Skip => Ok(values)
        case Undefined => Err(ParseError(KindOther, "", UndefinedPart(name)))
        case Target(vs) =>
          match decodePart(name, vs)
          case Err(e) => Err(WrapPartError(name, e))
          case Ok(v) => Ok(values[name := Collected(values, name) + [v]])
  }

  /**
   * With distinct part names, each decoded part holds exactly one value,
   * the one its decoder returned, and the parts with values are the visited
   * parts that resolve to a schema.
   */
  lemma {:induction false} PartsFromOk(schema: Schema, names: seq<string>, n: nat, decodePart: PartDecoder)
    requires n <= |names|
    requires forall i, j :: 0 <= i < j < |names| ==> names[i] != names[j]
    requires PartsFrom(schema, names, n, decodePart).Ok?
    ensures forall k :: k in PartsFrom(schema, names, n, decodePart).value <==> k in names[..n] && ResolvePart(schema, k).Target?
    ensures forall k :: k in PartsFrom(schema, names, n, decodePart).value ==>
      |PartsFrom(schema, names, n, decodePart).value[k]| == 1
      && decodePart(k, ResolvePart(schema, k).schema) == Ok(PartsFrom(schema, names, n, decodePart).value[k][0])
  {
    if n > 0 {
      PartsFromOk(schema, names, n - 1, decodePart);
      assert names[..n] == names[..n - 1] + [names[n - 1]];
      assert names[n - 1] !in names[..n - 1];
    }
  }

  /** A failure comes from a visited part that is undefined or whose decoding failed. */
  lemma {:induction false} PartsFromErr(schema: Schema, names: seq<string>, n: nat, decodePart: PartDecoder)
    requires n <= |names|
    requires PartsFrom(schema, names, n, decodePart).Err?
    ensures exists i :: 0 <= i < n && PartFailed(schema, names[i], decodePart, PartsFrom(schema, names, n, decodePart).error)
  {
    if PartsFrom(schema, names, n - 1, decodePart).Err? {
      PartsFromErr(schema, names, n - 1, decodePart);
    }
  }

  /** The part `name` fails with `e`: it is undefined, or its decoder's error is `e` once tagged. */
  predicate PartFailed(schema: Schema, name: string, decodePart: PartDecoder, e: Error) {
    match ResolvePart(schema, name)
    case Skip => false
    case Undefined => e == ParseError(KindOther, "", UndefinedPart(name))
    case Target(vs) => decodePart(name, vs).Err? && e == WrapPartError(name, decodePart(name, vs).error)
  }

  /** Once a part fails, visiting more keeps that failure. */
  lemma {:induction false} PartsFromAbort(schema: Schema, names: seq<string>, n: nat, m: nat, decodePart: PartDecoder)
    requires n <= m <= |names|
    requires PartsFrom(schema, names, n, decodePart).Err?
    ensures PartsFrom(schema, names, m, decodePart) == PartsFrom(schema, names, n, decodePart)
    decreases m - n
  {
    if n < m {
      PartsFromAbort(schema, names, n, m - 1, decodePart);
    }
  }

  /** `allTheProperties`: the declared properties, overridden by those of the additionalProperties schema. */
  function AllProperties(schema: Schema): map<string, Schema> {
    if schema.additionalProperties.Some? then schema.properties + schema.additionalProperties.value.properties
    else schema.properties
  }

  /** The entry of a property with collected values: all of them for an array property, the first for any other. */
  function Entry(prop: Schema, vv: seq<Value>): Value
    requires vv != []
  {
    if prop.typ == "array" then List(vv) else vv[0]
  }

  /** The object `multipartBodyDecoder` assembles from the collected values. */
  function Assemble(all: map<string, Schema>, values: map<string, seq<Value>>): map<string, Value> {
    map k | k in all && Collected(values, k) != [] :: Entry(all[k], values[k])
  }

  /** The values of the form's parts, visited in key order, or the first error. */
  function PartsOf(parts: map<string, seq<string>>, schema: Schema, decodePart: PartDecoder): Result<map<string, seq<Value>>, Error> {
    var names := Ordered(parts.Keys);
    PartsFrom(schema, names, |names|, decodePart)
  }

  /**
   * When every part decodes, a part name has collected values iff it is in
   * the form and resolves to a schema, and then it holds exactly the value
   * its decoder returned.
   */
  lemma PartsOfAt(parts: map<string, seq<string>>, schema: Schema, decodePart: PartDecoder, k: string)
    requires PartsOf(parts, schema, decodePart).Ok?
    ensures var values := PartsOf(parts, schema, decodePart).value;
      (k in values <==> k in parts && ResolvePart(schema, k).Target?)
      && (k in values ==>
            |values[k]| == 1 && values[k] == [values[k][0]] && decodePart(k, ResolvePart(schema, k).schema) == Ok(values[k][0]))
  {
    var names := Ordered(parts.Keys);
    assert PartsOf(parts, schema, decodePart) == PartsFrom(schema, names, |names|, decodePart);
    OrderedDistinct(parts.Keys);
    PartsFromOk(schema, names, |names|, decodePart);
    assert names[..|names|] == names;
    assert k in names <==> k in parts;
  }

  /** What `multipartBodyDecoder` returns. */
  function MultipartOf(form: Result<map<string, seq<string>>, Error>, schema: Schema, decodePart: PartDecoder): Result<Value, Error> {
    if schema.typ != "object" then Err(Failure(UnsupportedBodySchema))
    else
      match form
      case Err(e) => Err(e)
      case Ok(parts) =>
        match PartsOf(parts, schema, decodePart)
        case Err(e) => Err(e)
        case Ok(values) => Ok(Object(Assemble(AllProperties(schema), values)))
  }

  /**
   * A decoded multipart body holds exactly the properties (declared or from
   * additionalProperties) that have a part resolving to a schema; an array
   * property holds the one-element list of its part's value, any other
   * property the value itself.
   */
  lemma MultipartFields(form: Result<map<string, seq<string>>, Error>, schema: Schema, decodePart: PartDecoder)
    requires MultipartOf(form, schema, decodePart).Ok?
    ensures schema.typ == "object" && form.Ok? && MultipartOf(form, schema, decodePart).value.Object?
    ensures forall k :: k in MultipartOf(form, schema, decodePart).value.fields <==>
      k in AllProperties(schema) && k in form.value && ResolvePart(schema, k).Target?
    ensures forall k :: k in MultipartOf(form, schema, decodePart).value.fields ==>
      decodePart(k, ResolvePart(schema, k).schema).Ok?
      && MultipartOf(form, schema, decodePart).value.fields[k]
         == Entry(AllProperties(schema)[k], [decodePart(k, ResolvePart(schema, k).schema).value])
  {
    forall k
      ensures k in MultipartOf(form, schema, decodePart).value.fields <==>
        k in AllProperties(schema) && k in form.value && ResolvePart(schema, k).Target?
      ensures k in MultipartOf(form, schema, decodePart).value.fields ==>
        decodePart(k, ResolvePart(schema, k).schema).Ok?
        && MultipartOf(form, schema, decodePart).value.fields[k]
           == Entry(AllProperties(schema)[k], [decodePart(k, ResolvePart(schema, k).schema).value])
    {
      PartsOfAt(form.value, schema, decodePart, k);
    }
  }

  /** A multipart body that fails after its form was read names a part that is undefined or did not decode. */
  lemma MultipartFailure(form: Result<map<string, seq<string>>, Error>, schema: Schema, decodePart: PartDecoder)
    requires schema.typ == "object" && form.Ok?
    requires MultipartOf(form, schema, decodePart).Err?
    ensures exists k :: k in form.value && PartFailed(schema, k, decodePart, MultipartOf(form, schema, decodePart).error)
  {
    var names := Ordered(form.value.Keys);
    PartsFromErr(schema, names, |names|, decodePart);
    var i :| 0 <= i < |names| && PartFailed(schema, names[i], decodePart, MultipartOf(form, schema, decodePart).error);
  }

  /**
   * The part decoder as written: request_body_decoder.go:218 calls
   * `decodeBody` on the whole request, whose media type selects
   * `multipartBodyDecoder` again, so a part is decoded as the whole form
   * against the part's schema. `deeper` decodes the parts of that nested
   * decoding; a nil part schema, on which the source panics, is left to it.
   */
  function Redecode(form: Result<map<string, seq<string>>, Error>, deeper: PartDecoder): PartDecoder {
    (name: string, vs: Option<Schema>) =>
      match vs
      case Some(s) => MultipartOf(form, s, deeper)
      case None => deeper(name, vs)
  }

  /**
   * As written, a multipart body decodes only when every part it decodes has
   * an object schema: any other part schema is rejected by the nested
   * decoder's schema check, whatever the deeper decoding does.
   */
  lemma RedecodeNeedsObjectParts(form: Result<map<string, seq<string>>, Error>, schema: Schema, deeper: PartDecoder)
    requires MultipartOf(form, schema, Redecode(form, deeper)).Ok?
    ensures form.Ok?
    ensures forall k :: k in form.value && ResolvePart(schema, k).Target? && ResolvePart(schema, k).schema.Some? ==>
      ResolvePart(schema, k).schema.value.typ == "object"
  {
    var d := Redecode(form, deeper);
    assert PartsOf(form.value, schema, d).Ok?;
    forall k | k in form.value && ResolvePart(schema, k).Target? && ResolvePart(schema, k).schema.Some?
      ensures ResolvePart(schema, k).schema.value.typ == "object"
    {
      var sub := ResolvePart(schema, k).schema.value;
      PartsOfAt(form.value, schema, d, k);
      RedecodeSome(form, deeper, k, sub);
    }
  }

  /** A part with a schema is the whole form decoded against that schema. */
  lemma RedecodeSome(form: Result<map<string, seq<string>>, Error>, deeper: PartDecoder, name: string, s: Schema)
    ensures Redecode(form, deeper)(name, Some(s)) == MultipartOf(form, s, deeper)
  {
  }

  /** The form `name=alice`. */
  function AliceForm(): Result<map<string, seq<string>>, Error> {
    Ok(map["name" := ["alice"]])
  }

  /** An object schema with one string property `name`. */
  function NameSchema(): Schema {
    TypeSchema("object").(properties := map["name" := TypeSchema("string")])
  }

  /** The only part of `name=alice` is visited alone. */
  lemma AliceNames()
    ensures Ordered(AliceForm().value.Keys) == ["name"]
  {
    var names := Ordered(AliceForm().value.Keys);
    assert AliceForm().value.Keys == {"name"};
    assert |names| == 1 && "name" in names;
  }

  /** As written, `name=alice` against an object with a string `name` fails with `part name: unsupported schema of request body`. */
  lemma AliceRedecodeFails(deeper: PartDecoder)
    ensures MultipartOf(AliceForm(), NameSchema(), Redecode(AliceForm(), deeper))
      == Err(PartFailure("name", Failure(UnsupportedBodySchema)))
  {
    AliceNames();
    var d := Redecode(AliceForm(), deeper);
    assert ResolvePart(NameSchema(), "name") == Target(Some(TypeSchema("string")));
    RedecodeSome(AliceForm(), deeper, "name", TypeSchema("string"));
    assert d("name", Some(TypeSchema("string"))) == Err(Failure(UnsupportedBodySchema));
    assert PartsFrom(NameSchema(), ["name"], 0, d) == Ok(map[]);
  }

  /** Decoding the part on its own, `name=alice` gives the object holding that part's value. */
  lemma AlicePartOnItsOwn(decodePart: PartDecoder, v: Value)
    requires decodePart("name", Some(TypeSchema("string"))) == Ok(v)
    ensures MultipartOf(AliceForm(), NameSchema(), decodePart) == Ok(Object(map["name" := v]))
  {
    AliceNames();
    assert ResolvePart(NameSchema(), "name") == Target(Some(TypeSchema("string")));
    assert PartsFrom(NameSchema(), ["name"], 0, decodePart) == Ok(map[]);
    var values := map["name" := [v]];
    assert Collected(map[], "name") + [v] == [v];
    assert PartsFrom(NameSchema(), ["name"], 1, decodePart) == Ok(values);
    assert PartsOf(AliceForm().value, NameSchema(), decodePart) == Ok(values);
    assert AllProperties(NameSchema()) == NameSchema().properties;
    assert Assemble(AllProperties(NameSchema()), values) == map["name" := v];
  }

  /** `multipartBodyDecoder`: decodes the form's parts one by one, then assembles the object. */
  method MultipartBodyDecoder(form: Result<map<string, seq<string>>, Error>, schema: Schema, decodePart: PartDecoder) returns (r: Result<Value, Error>)
    ensures r == MultipartOf(form, schema, decodePart)
  {
    if schema.typ != "object" {
      return Err(Failure(UnsupportedBodySchema));
    }
    if form.Err? {
      return Err(form.error);
    }
    var values := DecodeParts(schema, Ordered(form.value.Keys), decodePart);
    assert values == PartsOf(form.value, schema, decodePart);
    if values.Err? {
      return Err(values.error);
    }
    var all := CopyProperties(map[], schema.properties);
    MergeIntoEmpty(schema.properties);
    if schema.additionalProperties.Some? {
      all := CopyProperties(all, schema.additionalProperties.value.properties);
    }
    var obj := AssembleObject(all, values.value);
    return Ok(Object(obj));
  }

  /** The part loop of `multipartBodyDecoder`: each part resolved, decoded and collected, stopping at the first error. */
  method DecodeParts(schema: Schema, names: seq<string>, decodePart: PartDecoder) returns (r: Result<map<string, seq<Value>>, Error>)
    ensures r == PartsFrom(schema, names, |names|, decodePart)
  {
    var values: map<string, seq<Value>> := map[];
    for i := 0 to |names|
      invariant PartsFrom(schema, names, i, decodePart) == Ok(values)
    {
      var name := names[i];
      var target := ResolvePart(schema, name);
      if target.Skip? {
        continue;
      }
      if target.Undefined? {
        PartsFromAbort(schema, names, i + 1, |names|, decodePart);
        return Err(ParseError(KindOther, "", UndefinedPart(name)));
      }
      var value := decodePart(name, target.schema);
      if value.Err? {
        PartsFromAbort(schema, names, i + 1, |names|, decodePart);
        return Err(WrapPartError(name, value.error));
      }
      values := values[name := Collected(values, name) + [value.value]];
    }
    return Ok(values);
  }

  /** `into` with the entries of `from` at `keys[..n]` copied over it. */
  function CopiedFrom<V>(into: map<string, V>, from: map<string, V>, keys: seq<string>, n: nat): map<string, V>
    requires n <= |keys| && forall i :: 0 <= i < |keys| ==> keys[i] in from
  {
    if n == 0 then into else CopiedFrom(into, from, keys, n - 1)[keys[n - 1] := from[keys[n - 1]]]
  }

  lemma {:induction false} CopiedFromAt<V>(into: map<string, V>, from: map<string, V>, keys: seq<string>, n: nat, k: string)
    requires n <= |keys| && forall i :: 0 <= i < |keys| ==> keys[i] in from
    ensures k in CopiedFrom(into, from, keys, n) <==> k in into || k in keys[..n]
    ensures k in CopiedFrom(into, from, keys, n) ==>
      CopiedFrom(into, from, keys, n)[k] == if k in keys[..n] then from[k] else into[k]
  {
    if n > 0 {
      CopiedFromAt(into, from, keys, n - 1, k);
      assert keys[..n] == keys[..n - 1] + [keys[n - 1]];
    }
  }

  /** Copying every key of `from`, in any order, gives the merge of the two maps, `from` winning. */
  lemma CopiedAll<V>(into: map<string, V>, from: map<string, V>, keys: seq<string>)
    requires forall k :: k in keys <==> k in from
    ensures forall i :: 0 <= i < |keys| ==> keys[i] in from
    ensures CopiedFrom(into, from, keys, |keys|) == into + from
  {
    var r := CopiedFrom(into, from, keys, |keys|);
    var m := into + from;
    assert keys[..|keys|] == keys;
    forall k | k in r ensures k in m && r[k] == m[k] {
      CopiedFromAt(into, from, keys, |keys|, k);
    }
    forall k | k in m ensures k in r {
      CopiedFromAt(into, from, keys, |keys|, k);
    }
  }

  lemma MergeIntoEmpty<V>(m: map<string, V>)
    ensures map[] + m == m
  {
  }

  /** The copy loop of `multipartBodyDecoder`'s `allTheProperties`. */
  method CopyProperties<V>(into: map<string, V>, from: map<string, V>) returns (r: map<string, V>)
    ensures r == into + from
  {
    var keys := Ordered(from.Keys);
    r := into;
    for i := 0 to |keys|
      invariant r == CopiedFrom(into, from, keys, i)
    {
      r := r[keys[i] := from[keys[i]]];
    }
    CopiedAll(into, from, keys);
  }

  /** The entries assembled for the properties `keys[..n]`. */
  function AssembledFrom(all: map<string, Schema>, values: map<string, seq<Value>>, keys: seq<string>, n: nat): map<string, Value>
    requires n <= |keys| && forall i :: 0 <= i < |keys| ==> keys[i] in all
  {
    if n == 0 then map[]
    else
      var k := keys[n - 1];
      if Collected(values, k) == [] then AssembledFrom(all, values, keys, n - 1)
      else AssembledFrom(all, values, keys, n - 1)[k := Entry(all[k], values[k])]
  }

  lemma {:induction false} AssembledFromAt(all: map<string, Schema>, values: map<string, seq<Value>>, keys: seq<string>, n: nat, k: string)
    requires n <= |keys| && forall i :: 0 <= i < |keys| ==> keys[i] in all
    ensures k in AssembledFrom(all, values, keys, n) <==> Collected(values, k) != [] && k in keys[..n]
    ensures k in AssembledFrom(all, values, keys, n) ==> AssembledFrom(all, values, keys, n)[k] == Entry(all[k], values[k])
  {
    if n > 0 {
      AssembledFromAt(all, values, keys, n - 1, k);
      assert keys[..n] == keys[..n - 1] + [keys[n - 1]];
    }
  }

  /** Visiting every property assembles the object `Assemble` describes. */
  lemma AssembledAll(all: map<string, Schema>, values: map<string, seq<Value>>)
    ensures AssembledFrom(all, values, Ordered(all.Keys), |all.Keys|) == Assemble(all, values)
  {
    var r := AssembledFrom(all, values, Ordered(all.Keys), |all.Keys|);
    forall k ensures (k in r <==> k in Assemble(all, values)) && (k in r ==> r[k] == Assemble(all, values)[k]) {
      AssembledAllAt(all, values, k);
    }
  }

  lemma AssembledAllAt(all: map<string, Schema>, values: map<string, seq<Value>>, k: string)
    ensures var r := AssembledFrom(all, values, Ordered(all.Keys), |all.Keys|);
      (k in r <==> k in Assemble(all, values)) && (k in r ==> r[k] == Assemble(all, values)[k])
  {
    var keys := Ordered(all.Keys);
    assert keys[..|keys|] == keys;
    AssembledFromAt(all, values, keys, |keys|, k);
  }

  /** The assembly loop of `multipartBodyDecoder`. */
  method AssembleObject(all: map<string, Schema>, values: map<string, seq<Value>>) returns (obj: map<string, Value>)
    ensures obj == Assemble(all, values)
  {
    var keys := Ordered(all.Keys);
    obj := map[];
    for i := 0 to |keys|
      invariant obj == AssembledFrom(all, values, keys, i)
    {
      var name := keys[i];
      var vv := Collected(values, name);
      if |vv| == 0 {
        continue;
      }
      if all[name].typ == "array" {
        obj := obj[name := List(vv)];
      } else {
        obj := obj[name := vv[0]];
      }
    }
    AssembledAll(all, values);
  }
}
