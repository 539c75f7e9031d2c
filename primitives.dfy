/**
 * Splitting and primitive parsing (decode_parameters.go): `cutPrefix`,
 * `parsePrimitive`, `parseArray`, `propsFromString` and `makeObject`.
 *
 * `strconv.ParseFloat` is a foreign call: it is passed in as `parseFloat`,
 * a partial function from text to a number.
 */
module Primitives {
  import opened Wrappers
  import opened Text
  import opened Order
  import opened Values

  /** `cutPrefix`: the raw value without its required style prefix. */
  function CutPrefix(raw: string, prefix: string): (r: Result<string, Error>)
    ensures prefix == [] ==> r == Ok(raw)
    ensures r.Ok? <==> HasPrefix(raw, prefix)
    ensures r.Ok? ==> prefix + r.value == raw
    ensures r.Err? ==> r.error == ParseError(KindInvalidFormat, raw, MissingPrefix(prefix))
  {
    if prefix == [] then Ok(raw)
    else if |raw| < |prefix| || raw[..|prefix|] != prefix then
      Err(ParseError(KindInvalidFormat, raw, MissingPrefix(prefix)))
    else Ok(raw[|prefix|..])
  }

  /** `strconv.ParseBool`: the twelve spellings Go accepts. */
  function ParseBool(s: string): (r: Option<bool>)
    ensures r.Some? ==> 1 <= |s| <= 5
    ensures r.Some? ==> (r.value <==> s[0] in "1tT")
  {
    if s in {"1", "t", "T", "TRUE", "true", "True"} then Some(true)
    else if s in {"0", "f", "F", "FALSE", "false", "False"} then Some(false)
    else None
  }

  /**
   * `parsePrimitive`: one raw string as a scalar of the schema's type.
   * The source panics on a non-primitive type once the string is non-empty;
   * that is the precondition.
   */
  function ParsePrimitive(raw: string, schema: Schema, parseFloat: string -> Option<real>): (r: Result<Value, Error>)
    requires raw == [] || IsPrimitiveType(schema.typ)
    ensures raw == [] ==> r == Ok(Null)
    ensures raw != [] && r.Ok? ==> r.value != Null
    ensures raw != [] && schema.typ == "string" ==> r == Ok(Str(raw))
    ensures raw != [] && schema.typ == "boolean" ==>
      (r.Ok? <==> ParseBool(raw).Some?) && (r.Ok? ==> r.value == Bool(ParseBool(raw).value))
    ensures raw != [] && (schema.typ == "integer" || schema.typ == "number") ==>
      (r.Ok? <==> parseFloat(raw).Some?) && (r.Ok? ==> r.value == Number(parseFloat(raw).value))
    ensures r.Err? ==> r.error.ParseError? && r.error.kind == KindInvalidFormat && r.error.value == raw
  {
    if raw == [] then Ok(Null)
    else if schema.typ == "integer" then
      match parseFloat(raw)
      case Some(x) => Ok(Number(x))
      case None => Err(ParseError(KindInvalidFormat, raw, InvalidInteger))
    else if schema.typ == "number" then
      match parseFloat(raw)
      case Some(x) => Ok(Number(x))
      case None => Err(ParseError(KindInvalidFormat, raw, InvalidNumber))
    else if schema.typ == "boolean" then
      // The source reports a bad boolean with the reason "an invalid number".
      match ParseBool(raw)
      case Some(b) => Ok(Bool(b))
      case None => Err(ParseError(KindInvalidFormat, raw, InvalidNumber))
    else Ok(Str(raw))
  }

  /** The schema `parseArray` parses items with; a missing `items` is only ever consulted for empty pieces. */
  function ItemSchema(arraySchema: Schema): Schema {
    arraySchema.items.GetOr(EmptySchema())
  }

  /** `parsePrimitive` cannot panic on any piece of `raw` with the items of `array`. */
  predicate ItemsParseable(raw: seq<string>, arraySchema: Schema) {
    forall i :: 0 <= i < |raw| ==> raw[i] == [] || (arraySchema.items.Some? && IsPrimitiveType(arraySchema.items.value.typ))
  }

  /** The first `n` pieces of `raw` parsed in order; the first failing piece aborts with its index. */
  function ParsedItems(raw: seq<string>, n: nat, arraySchema: Schema, parseFloat: string -> Option<real>): (r: Result<seq<Value>, Error>)
    requires n <= |raw| && ItemsParseable(raw, arraySchema)
    ensures r.Ok? <==> forall i :: 0 <= i < n ==> ParsePrimitive(raw[i], ItemSchema(arraySchema), parseFloat).Ok?
    ensures r.Ok? ==> |r.value| == n
    ensures r.Ok? ==> forall i :: 0 <= i < n ==> r.value[i] == ParsePrimitive(raw[i], ItemSchema(arraySchema), parseFloat).value
    ensures r.Err? ==> exists i :: (0 <= i < n
      && (forall j :: 0 <= j < i ==> ParsePrimitive(raw[j], ItemSchema(arraySchema), parseFloat).Ok?)
      && ParsePrimitive(raw[i], ItemSchema(arraySchema), parseFloat).Err?
      && r.error == At(Index(i), ParsePrimitive(raw[i], ItemSchema(arraySchema), parseFloat).error))
  {
    if n == 0 then Ok([])
    else
      match ParsedItems(raw, n - 1, arraySchema, parseFloat)
      case Err(e) => Err(e)
      case Ok(prefix) =>
        match ParsePrimitive(raw[n - 1], ItemSchema(arraySchema), parseFloat)
        case Err(e) => Err(At(Index(n - 1), e))
        case Ok(v) => Ok(prefix + [v])
  }

  /** Once an item fails, parsing more items keeps that failure. */
  lemma {:induction false} ParsedItemsAbort(raw: seq<string>, n: nat, m: nat, arraySchema: Schema, parseFloat: string -> Option<real>)
    requires n <= m <= |raw| && ItemsParseable(raw, arraySchema)
    requires ParsedItems(raw, n, arraySchema, parseFloat).Err?
    ensures ParsedItems(raw, m, arraySchema, parseFloat) == ParsedItems(raw, n, arraySchema, parseFloat)
    decreases m - n
  {
    if n < m {
      ParsedItemsAbort(raw, n, m - 1, arraySchema, parseFloat);
    }
  }

  lemma ParsedItemsStep(raw: seq<string>, i: nat, arraySchema: Schema, parseFloat: string -> Option<real>, prefix: seq<Value>)
    requires i < |raw| && ItemsParseable(raw, arraySchema)
    requires ParsedItems(raw, i, arraySchema, parseFloat) == Ok(prefix)
    ensures var item := ParsePrimitive(raw[i], ItemSchema(arraySchema), parseFloat);
      ParsedItems(raw, i + 1, arraySchema, parseFloat)
        == if item.Err? then Err(At(Index(i), item.error)) else Ok(prefix + [item.value])
  {
  }

  /** `parseArray`: every piece parsed with the array's item schema, in order. */
  method ParseArray(raw: seq<string>, arraySchema: Schema, parseFloat: string -> Option<real>) returns (r: Result<seq<Value>, Error>)
    requires ItemsParseable(raw, arraySchema)
    ensures r == ParsedItems(raw, |raw|, arraySchema, parseFloat)
  {
    var value: seq<Value> := [];
    for i := 0 to |raw|
      invariant ParsedItems(raw, i, arraySchema, parseFloat) == Ok(value)
    {
      var item := ParsePrimitive(raw[i], ItemSchema(arraySchema), parseFloat);
      ParsedItemsStep(raw, i, arraySchema, parseFloat, value);
      if item.Err? {
        ParsedItemsAbort(raw, i + 1, |raw|, arraySchema, parseFloat);
        return Err(At(Index(i), item.error));
      }
      value := value + [item.value];
    }
    return Ok(value);
  }


  /** The name of the `i`-th alternating pair. */
  function NameAt(pieces: seq<string>, i: nat): string
    requires 2 * i + 1 < |pieces|
  {
    pieces[2 * i]
  }

  /** The value of the `i`-th alternating pair. */
  function ValueAt(pieces: seq<string>, i: nat): string
    requires 2 * i + 1 < |pieces|
  {
    pieces[2 * i + 1]
  }

  /** The first `n` pairs of `name, value, name, value, ...`, stored in order. */
  function AlternatingProps(pieces: seq<string>, n: nat): map<string, string>
    requires 2 * n <= |pieces|
  {
    if n == 0 then map[]
    else AlternatingProps(pieces, n - 1)[NameAt(pieces, n - 1) := ValueAt(pieces, n - 1)]
  }

  /** The names are exactly the pieces at even positions. */
  lemma {:induction false} AlternatingPropsKeys(pieces: seq<string>, n: nat, k: string)
    requires 2 * n <= |pieces|
    ensures k in AlternatingProps(pieces, n) <==> exists i :: 0 <= i < n && NameAt(pieces, i) == k
  {
    if n > 0 {
      AlternatingPropsKeys(pieces, n - 1, k);
      if NameAt(pieces, n - 1) == k {
        assert 0 <= n - 1 < n && NameAt(pieces, n - 1) == k;
      }
    }
  }

  /** The piece at `2i` maps to the piece at `2i + 1` unless a later pair repeats the name. */
  lemma {:induction false} AlternatingPropsLastWins(pieces: seq<string>, n: nat, i: nat)
    requires 2 * n <= |pieces| && i < n
    requires forall j :: i < j < n ==> NameAt(pieces, j) != NameAt(pieces, i)
    ensures NameAt(pieces, i) in AlternatingProps(pieces, n)
    ensures AlternatingProps(pieces, n)[NameAt(pieces, i)] == ValueAt(pieces, i)
  {
    if i < n - 1 {
      AlternatingPropsLastWins(pieces, n - 1, i);
    }
  }

  /** Each of the first `n` chunks splits on `valueDelim` into exactly two parts. */
  predicate ChunksArePairs(chunks: seq<string>, valueDelim: string, n: nat)
    requires n <= |chunks|
  {
    forall i :: 0 <= i < n ==> |Split(chunks[i], valueDelim)| == 2
  }

  /** The first `n` chunks, each split on `valueDelim` into exactly a name and a value, stored in order. */
  function ChunkProps(src: string, chunks: seq<string>, valueDelim: string, n: nat): (r: Result<map<string, string>, Error>)
    requires n <= |chunks|
    ensures r.Ok? <==> ChunksArePairs(chunks, valueDelim, n)
    ensures r.Err? ==> r.error == ParseError(KindInvalidFormat, src, MalformedProperties)
  {
    if n == 0 then Ok(map[])
    else
      match ChunkProps(src, chunks, valueDelim, n - 1)
      case Err(e) => Err(e)
      case Ok(m) =>
        var prop := Split(chunks[n - 1], valueDelim);
        if |prop| != 2 then Err(ParseError(KindInvalidFormat, src, MalformedProperties))
        else Ok(m[prop[0] := prop[1]])
  }

  /** The names are exactly the parts before the value delimiter. */
  lemma {:induction false} ChunkPropsKeys(src: string, chunks: seq<string>, valueDelim: string, n: nat, k: string)
    requires n <= |chunks| && ChunkProps(src, chunks, valueDelim, n).Ok?
    ensures k in ChunkProps(src, chunks, valueDelim, n).value <==>
      exists i :: 0 <= i < n && Split(chunks[i], valueDelim)[0] == k
  {
    if n > 0 {
      var prev := ChunkProps(src, chunks, valueDelim, n - 1);
      assert prev.Ok?;
      ChunkPropsStep(src, chunks, valueDelim, n - 1, prev.value);
      ChunkPropsKeys(src, chunks, valueDelim, n - 1, k);
      var prop := Split(chunks[n - 1], valueDelim);
      if prop[0] == k {
        assert 0 <= n - 1 < n && Split(chunks[n - 1], valueDelim)[0] == k;
      } else {
        assert k in ChunkProps(src, chunks, valueDelim, n).value <==> k in prev.value;
        forall i | 0 <= i < n && Split(chunks[i], valueDelim)[0] == k ensures i < n - 1 {
        }
      }
    }
  }

  lemma ChunkPropsStep(src: string, chunks: seq<string>, valueDelim: string, i: nat, props: map<string, string>)
    requires i < |chunks| && ChunkProps(src, chunks, valueDelim, i) == Ok(props)
    ensures var prop := Split(chunks[i], valueDelim);
      ChunkProps(src, chunks, valueDelim, i + 1)
        == if |prop| != 2 then Err(ParseError(KindInvalidFormat, src, MalformedProperties)) else Ok(props[prop[0] := prop[1]])
  {
  }

  /** Each name maps to its own value unless a later chunk repeats the name. */
  lemma {:induction false} ChunkPropsLastWins(src: string, chunks: seq<string>, valueDelim: string, n: nat, i: nat)
    requires i < n <= |chunks| && ChunkProps(src, chunks, valueDelim, n).Ok?
    requires forall j :: i < j < n ==> Split(chunks[j], valueDelim)[0] != Split(chunks[i], valueDelim)[0]
    ensures Split(chunks[i], valueDelim)[0] in ChunkProps(src, chunks, valueDelim, n).value
    ensures ChunkProps(src, chunks, valueDelim, n).value[Split(chunks[i], valueDelim)[0]] == Split(chunks[i], valueDelim)[1]
  {
    if i < n - 1 {
      ChunkPropsLastWins(src, chunks, valueDelim, n - 1, i);
    }
  }

  /** Once a chunk is malformed, visiting more chunks keeps the failure. */
  lemma {:induction false} ChunkPropsAbort(src: string, chunks: seq<string>, valueDelim: string, n: nat, m: nat)
    requires n <= m <= |chunks| && ChunkProps(src, chunks, valueDelim, n).Err?
    ensures ChunkProps(src, chunks, valueDelim, m) == ChunkProps(src, chunks, valueDelim, n)
    decreases m - n
  {
    if n < m {
      ChunkPropsAbort(src, chunks, valueDelim, n, m - 1);
    }
  }

  /** What `propsFromString` computes: the properties encoded in `src`. */
  function Props(src: string, propDelim: string, valueDelim: string): (r: Result<map<string, string>, Error>)
    ensures r.Err? ==> r.error == ParseError(KindInvalidFormat, src, MalformedProperties)
    ensures propDelim == valueDelim ==> (r.Ok? <==> |Split(src, propDelim)| % 2 == 0)
    ensures propDelim != valueDelim ==>
      (r.Ok? <==> ChunksArePairs(Split(src, propDelim), valueDelim, |Split(src, propDelim)|))
  {
    var pairs := Split(src, propDelim);
    if propDelim == valueDelim then
      if |pairs| % 2 != 0 then Err(ParseError(KindInvalidFormat, src, MalformedProperties))
      else Ok(AlternatingProps(pairs, |pairs| / 2))
    else ChunkProps(src, pairs, valueDelim, |pairs|)
  }

  /** `propsFromString`: splits `src` into properties, alternating names and values when both delimiters are equal. */
  method PropsFromString(src: string, propDelim: string, valueDelim: string) returns (r: Result<map<string, string>, Error>)
    ensures r == Props(src, propDelim, valueDelim)
  {
    var pairs := Split(src, propDelim);
    if propDelim == valueDelim {
      if |pairs| % 2 != 0 {
        return Err(ParseError(KindInvalidFormat, src, MalformedProperties));
      }
      var props := AlternatingLoop(pairs);
      return Ok(props);
    }
    r := ChunkLoop(src, pairs, valueDelim);
  }

  /** The loop of `propsFromString` over alternating names and values. */
  method AlternatingLoop(pairs: seq<string>) returns (props: map<string, string>)
    ensures props == AlternatingProps(pairs, |pairs| / 2)
  {
    props := map[];
    for i := 0 to |pairs| / 2
      invariant props == AlternatingProps(pairs, i)
    {
      props := props[pairs[i * 2] := pairs[i * 2 + 1]];
    }
  }

  /** The loop of `propsFromString` over `name<valueDelim>value` chunks. */
  method ChunkLoop(src: string, pairs: seq<string>, valueDelim: string) returns (r: Result<map<string, string>, Error>)
    ensures r == ChunkProps(src, pairs, valueDelim, |pairs|)
  {
    var props: map<string, string> := map[];
    for i := 0 to |pairs|
      invariant ChunkProps(src, pairs, valueDelim, i) == Ok(props)
    {
      var prop := Split(pairs[i], valueDelim);
      ChunkPropsStep(src, pairs, valueDelim, i, props);
      if |prop| != 2 {
        ChunkPropsAbort(src, pairs, valueDelim, i + 1, |pairs|);
        return Err(ParseError(KindInvalidFormat, src, MalformedProperties));
      }
      props := props[prop[0] := prop[1]];
    }
    return Ok(props);
  }

  /** Go's `props[name]`: the value, or `""` when the name is absent. */
  function Lookup(props: map<string, string>, name: string): string {
    if name in props then props[name] else ""
  }

  /** `parsePrimitive` cannot panic on any declared property of `properties`. */
  predicate PropertiesParseable(props: map<string, string>, properties: map<string, Schema>) {
    forall k :: k in properties ==> Lookup(props, k) == [] || IsPrimitiveType(properties[k].typ)
  }

  /** The declared properties `names[..n]`, each parsed from its raw value; the first failure aborts with its name. */
  function ObjectFrom(props: map<string, string>, properties: map<string, Schema>, names: seq<string>, n: nat,
                      parseFloat: string -> Option<real>): Result<map<string, Value>, Error>
    requires n <= |names| && (forall i :: 0 <= i < |names| ==> names[i] in properties)
    requires PropertiesParseable(props, properties)
  {
    if n == 0 then Ok(map[])
    else
      match ObjectFrom(props, properties, names, n - 1, parseFloat)
      case Err(e) => Err(e)
      case Ok(obj) =>
        var name := names[n - 1];
        match ParsePrimitive(Lookup(props, name), properties[name], parseFloat)
        case Err(e) => Err(At(Key(name), e))
        case Ok(v) => Ok(obj[name := v])
  }

  /** A successful object has exactly the visited names as keys. */
  lemma {:induction false} ObjectFromKeys(props: map<string, string>, properties: map<string, Schema>, names: seq<string>, n: nat,
                                          parseFloat: string -> Option<real>)
    requires n <= |names| && (forall i :: 0 <= i < |names| ==> names[i] in properties)
    requires PropertiesParseable(props, properties)
    requires ObjectFrom(props, properties, names, n, parseFloat).Ok?
    ensures forall k :: k in ObjectFrom(props, properties, names, n, parseFloat).value <==> k in names[..n]
  {
    if n > 0 {
      ObjectFromKeys(props, properties, names, n - 1, parseFloat);
      assert names[..n] == names[..n - 1] + [names[n - 1]];
    }
  }

  /** Each key of a successful object holds its raw value parsed with its own schema. */
  lemma {:induction false} ObjectFromValues(props: map<string, string>, properties: map<string, Schema>, names: seq<string>, n: nat,
                                            parseFloat: string -> Option<real>)
    requires n <= |names| && (forall i :: 0 <= i < |names| ==> names[i] in properties)
    requires PropertiesParseable(props, properties)
    requires ObjectFrom(props, properties, names, n, parseFloat).Ok?
    ensures forall k :: k in ObjectFrom(props, properties, names, n, parseFloat).value ==>
      k in properties && ParsePrimitive(Lookup(props, k), properties[k], parseFloat)
        == Ok(ObjectFrom(props, properties, names, n, parseFloat).value[k])
  {
    if n > 0 {
      ObjectFromValues(props, properties, names, n - 1, parseFloat);
    }
  }

  /** A failed object names a visited property whose raw value does not parse, and carries that property's error. */
  lemma {:induction false} ObjectFromFailure(props: map<string, string>, properties: map<string, Schema>, names: seq<string>, n: nat,
                                             parseFloat: string -> Option<real>)
    requires n <= |names| && (forall i :: 0 <= i < |names| ==> names[i] in properties)
    requires PropertiesParseable(props, properties)
    requires ObjectFrom(props, properties, names, n, parseFloat).Err?
    ensures exists i :: (0 <= i < n
      && ParsePrimitive(Lookup(props, names[i]), properties[names[i]], parseFloat).Err?
      && ObjectFrom(props, properties, names, n, parseFloat).error
        == At(Key(names[i]), ParsePrimitive(Lookup(props, names[i]), properties[names[i]], parseFloat).error))
  {
    if ObjectFrom(props, properties, names, n - 1, parseFloat).Err? {
      ObjectFromFailure(props, properties, names, n - 1, parseFloat);
    }
  }

  /** Once a property fails, visiting more names keeps that failure. */
  lemma {:induction false} ObjectFromAbort(props: map<string, string>, properties: map<string, Schema>, names: seq<string>, n: nat, m: nat,
                                           parseFloat: string -> Option<real>)
    requires n <= m <= |names| && (forall i :: 0 <= i < |names| ==> names[i] in properties)
    requires PropertiesParseable(props, properties)
    requires ObjectFrom(props, properties, names, n, parseFloat).Err?
    ensures ObjectFrom(props, properties, names, m, parseFloat) == ObjectFrom(props, properties, names, n, parseFloat)
    decreases m - n
  {
    if n < m {
      ObjectFromAbort(props, properties, names, n, m - 1, parseFloat);
    }
  }

  /** What `makeObject` computes, visiting the schema's properties in the model's fixed order. */
  function ObjectOf(props: map<string, string>, schema: Schema, parseFloat: string -> Option<real>): Result<map<string, Value>, Error>
    requires PropertiesParseable(props, schema.properties)
  {
    var names := Ordered(schema.properties.Keys);
    ObjectFrom(props, schema.properties, names, |names|, parseFloat)
  }

  /** A successful object has exactly the schema's declared properties as keys: undeclared raw properties are dropped. */
  lemma ObjectOfKeys(props: map<string, string>, schema: Schema, parseFloat: string -> Option<real>)
    requires PropertiesParseable(props, schema.properties)
    requires ObjectOf(props, schema, parseFloat).Ok?
    ensures ObjectOf(props, schema, parseFloat).value.Keys == schema.properties.Keys
  {
    var names := Ordered(schema.properties.Keys);
    var obj := ObjectOf(props, schema, parseFloat).value;
    ObjectFromKeys(props, schema.properties, names, |names|, parseFloat);
    assert names[..|names|] == names;
    forall k ensures k in obj <==> k in schema.properties {
      assert k in obj <==> k in names;
    }
  }

  /** Each declared property holds its raw value parsed with its own schema. */
  lemma ObjectOfValues(props: map<string, string>, schema: Schema, parseFloat: string -> Option<real>)
    requires PropertiesParseable(props, schema.properties)
    requires ObjectOf(props, schema, parseFloat).Ok?
    ensures forall k :: k in schema.properties ==>
      k in ObjectOf(props, schema, parseFloat).value
      && ParsePrimitive(Lookup(props, k), schema.properties[k], parseFloat) == Ok(ObjectOf(props, schema, parseFloat).value[k])
  {
    var names := Ordered(schema.properties.Keys);
    ObjectOfKeys(props, schema, parseFloat);
    ObjectFromValues(props, schema.properties, names, |names|, parseFloat);
  }

  /** A declared property absent from the raw properties becomes nil. */
  lemma ObjectOfAbsent(props: map<string, string>, schema: Schema, parseFloat: string -> Option<real>, k: string)
    requires PropertiesParseable(props, schema.properties)
    requires ObjectOf(props, schema, parseFloat).Ok?
    requires k in schema.properties && k !in props
    ensures k in ObjectOf(props, schema, parseFloat).value && ObjectOf(props, schema, parseFloat).value[k] == Null
  {
    ObjectOfValues(props, schema, parseFloat);
    assert Lookup(props, k) == [];
  }

  /** A failure names a declared property whose raw value does not parse, with that property's error. */
  lemma ObjectOfFailure(props: map<string, string>, schema: Schema, parseFloat: string -> Option<real>)
    requires PropertiesParseable(props, schema.properties)
    requires ObjectOf(props, schema, parseFloat).Err?
    ensures exists k :: (k in schema.properties
      && ParsePrimitive(Lookup(props, k), schema.properties[k], parseFloat).Err?
      && ObjectOf(props, schema, parseFloat).error == At(Key(k), ParsePrimitive(Lookup(props, k), schema.properties[k], parseFloat).error))
  {
    var names := Ordered(schema.properties.Keys);
    ObjectFromFailure(props, schema.properties, names, |names|, parseFloat);
  }

  /** `makeObject`: builds the object property by property (see `ObjectOfKeys`, `ObjectOfValues`, `ObjectOfAbsent` and `ObjectOfFailure`). */
  method MakeObject(props: map<string, string>, schema: Schema, parseFloat: string -> Option<real>) returns (r: Result<map<string, Value>, Error>)
    requires PropertiesParseable(props, schema.properties)
    ensures r == ObjectOf(props, schema, parseFloat)
  {
    var names := Ordered(schema.properties.Keys);
    assert forall i :: 0 <= i < |names| ==> names[i] in schema.properties;
    var obj: map<string, Value> := map[];
    for i := 0 to |names|
      invariant ObjectFrom(props, schema.properties, names, i, parseFloat) == Ok(obj)
    {
      var name := names[i];
      var value := ParsePrimitive(Lookup(props, name), schema.properties[name], parseFloat);
      ObjectFromStep(props, schema.properties, names, i, parseFloat, obj);
      if value.Err? {
        ObjectFromAbort(props, schema.properties, names, i + 1, |names|, parseFloat);
        assert ObjectOf(props, schema, parseFloat) == ObjectFrom(props, schema.properties, names, |names|, parseFloat);
        return Err(At(Key(name), value.error));
      }
      obj := obj[name := value.value];
    }
    assert ObjectOf(props, schema, parseFloat) == ObjectFrom(props, schema.properties, names, |names|, parseFloat);
    return Ok(obj);
  }

  lemma ObjectFromStep(props: map<string, string>, properties: map<string, Schema>, names: seq<string>, i: nat,
                       parseFloat: string -> Option<real>, obj: map<string, Value>)
    requires i < |names| && (forall j :: 0 <= j < |names| ==> names[j] in properties)
    requires PropertiesParseable(props, properties)
    requires ObjectFrom(props, properties, names, i, parseFloat) == Ok(obj)
    ensures var value := ParsePrimitive(Lookup(props, names[i]), properties[names[i]], parseFloat);
      ObjectFrom(props, properties, names, i + 1, parseFloat)
        == if value.Err? then Err(At(Key(names[i]), value.error)) else Ok(obj[names[i] := value.value])
  {
  }
}
