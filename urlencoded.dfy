/**
 * `urlencodedBodyDecoder` (request_body_decoder.go): a url-encoded body is
 * read through its object schema, property by property, as if its form
 * arguments were a query string.
 */
module UrlEncodedBody {
  import opened Wrappers
  import opened Order
  import opened Values
  import opened Locations
  import opened Composition

  /** An Encoding object's `style` and `explode`, each possibly unset. */
  datatype Encoding = Encoding(style: Option<Style>, explode: Option<bool>)

  /** The serialization method of a part's encoding: `form` and exploded unless the encoding says otherwise. */
  function EncodingMethod(enc: Option<Encoding>): (sm: SerializationMethod)
    ensures enc.None? ==> sm == SerializationMethod(Form, true)
    ensures enc.Some? && enc.value.style.Some? ==> sm.style == enc.value.style.value
    ensures enc.Some? && enc.value.explode.Some? ==> sm.explode == enc.value.explode.value
  {
    match enc
    case None => SerializationMethod(Form, true)
    case Some(e) => SerializationMethod(e.style.GetOr(Form), e.explode.GetOr(true))
  }

  /** What decoding a form field needs and cannot see: number parsing and the encoding of each property. */
  datatype FormEnv = FormEnv(parseFloat: string -> Option<real>, encoding: string -> Option<Encoding>)

  /** Every array-typed property declares its items (the source dereferences them). */
  predicate ArrayItemsDeclared(properties: map<string, Schema>) {
    forall k :: k in properties && properties[k].typ == "array" ==> properties[k].items.Some?
  }

  /** A property a url-encoded body cannot carry: an object, or an array of non-primitive items. */
  predicate Rejected(p: Schema)
    requires p.typ == "array" ==> p.items.Some?
  {
    p.typ == "object" || (p.typ == "array" && !IsPrimitiveType(p.items.value.typ))
  }

  /** The first rejected property among `names[..n]`. */
  function CheckFrom(properties: map<string, Schema>, names: seq<string>, n: nat): Option<Error>
    requires n <= |names| && (forall i :: 0 <= i < |names| ==> names[i] in properties)
    requires ArrayItemsDeclared(properties)
  {
    if n == 0 then None
    else if CheckFrom(properties, names, n - 1).Some? then CheckFrom(properties, names, n - 1)
    else if Rejected(properties[names[n - 1]]) then Some(Failure(UnsupportedPropertySchema(names[n - 1])))
    else None
  }

  lemma CheckFromStep(properties: map<string, Schema>, names: seq<string>, i: nat)
    requires i < |names| && (forall j :: 0 <= j < |names| ==> names[j] in properties)
    requires ArrayItemsDeclared(properties)
    requires CheckFrom(properties, names, i).None?
    ensures CheckFrom(properties, names, i + 1)
      == if Rejected(properties[names[i]]) then Some(Failure(UnsupportedPropertySchema(names[i]))) else None
  {
  }

  /** The check passes iff no visited property is rejected; a failure names a rejected one. */
  lemma {:induction false} CheckFromSpec(properties: map<string, Schema>, names: seq<string>, n: nat)
    requires n <= |names| && (forall i :: 0 <= i < |names| ==> names[i] in properties)
    requires ArrayItemsDeclared(properties)
    ensures CheckFrom(properties, names, n).None? <==> forall i :: 0 <= i < n ==> !Rejected(properties[names[i]])
    ensures CheckFrom(properties, names, n).Some? ==>
      exists i :: 0 <= i < n && Rejected(properties[names[i]])
        && CheckFrom(properties, names, n).value == Failure(UnsupportedPropertySchema(names[i]))
  {
    if n > 0 {
      CheckFromSpec(properties, names, n - 1);
    }
  }

  /** Once a property is rejected, visiting more keeps that rejection. */
  lemma {:induction false} CheckFromAbort(properties: map<string, Schema>, names: seq<string>, n: nat, m: nat)
    requires n <= m <= |names| && (forall i :: 0 <= i < |names| ==> names[i] in properties)
    requires ArrayItemsDeclared(properties)
    requires CheckFrom(properties, names, n).Some?
    ensures CheckFrom(properties, names, m) == CheckFrom(properties, names, n)
    decreases m - n
  {
    if n < m {
      CheckFromAbort(properties, names, n, m - 1);
    }
  }

  /** The schema checks `urlencodedBodyDecoder` makes before decoding anything. */
  function UrlEncodedCheck(schema: Schema): Option<Error>
    requires schema.typ == "object" ==> ArrayItemsDeclared(schema.properties)
  {
    if schema.typ != "object" then Some(Failure(UnsupportedBodySchema))
    else
      var names := Ordered(schema.properties.Keys);
      CheckFrom(schema.properties, names, |names|)
  }

  /** A url-encoded body is accepted iff its schema is an object none of whose properties is rejected. */
  lemma UrlEncodedCheckSpec(schema: Schema)
    requires schema.typ == "object" ==> ArrayItemsDeclared(schema.properties)
    ensures UrlEncodedCheck(schema).None? <==>
      schema.typ == "object" && forall k :: k in schema.properties ==> !Rejected(schema.properties[k])
    ensures schema.typ != "object" ==> UrlEncodedCheck(schema) == Some(Failure(UnsupportedBodySchema))
    ensures schema.typ == "object" && UrlEncodedCheck(schema).Some? ==>
      exists k :: k in schema.properties && Rejected(schema.properties[k])
        && UrlEncodedCheck(schema).value == Failure(UnsupportedPropertySchema(k))
  {
    if schema.typ == "object" {
      var names := Ordered(schema.properties.Keys);
      CheckFromSpec(schema.properties, names, |names|);
      if UrlEncodedCheck(schema).None? {
        forall k | k in schema.properties ensures !Rejected(schema.properties[k]) {
          var i :| 0 <= i < |names| && names[i] == k;
        }
      }
    }
  }

  /** The serialization method a url-encoded property is decoded with. */
  function FieldMethod(env: FormEnv, name: string): SerializationMethod {
    EncodingMethod(env.encoding(name))
  }

  /** Every declared property can be decoded from the form arguments without a panic. */
  predicate FieldsDecodable(args: seq<(string, string)>, schema: Schema, env: FormEnv) {
    forall k :: k in schema.properties ==> Decodable(QueryDecoder(args), k, FieldMethod(env, k), schema.properties[k])
  }

  /** `decodeValue` of one declared property, read from the form arguments as from a query, never required. */
  function FieldDecoded(args: seq<(string, string)>, properties: map<string, Schema>, name: string, env: FormEnv): Decoded
    requires name in properties
    requires Decodable(QueryDecoder(args), name, FieldMethod(env, name), properties[name])
  {
    Resolve(NilAware, QueryDecoder(args), name, FieldMethod(env, name), properties[name], false, env.parseFloat)
  }

  /** The decoded properties `names`, in order. */
  function FieldResults(args: seq<(string, string)>, properties: map<string, Schema>, names: seq<string>, env: FormEnv): (r: seq<Decoded>)
    requires forall i :: 0 <= i < |names| ==> (names[i] in properties
      && Decodable(QueryDecoder(args), names[i], FieldMethod(env, names[i]), properties[names[i]]))
    ensures |r| == |names|
  {
    if names == [] then []
    else [FieldDecoded(args, properties, names[0], env)] + FieldResults(args, properties, names[1..], env)
  }

  lemma {:induction false} FieldResultsAt(args: seq<(string, string)>, properties: map<string, Schema>, names: seq<string>, env: FormEnv, i: nat)
    requires forall i :: 0 <= i < |names| ==> (names[i] in properties
      && Decodable(QueryDecoder(args), names[i], FieldMethod(env, names[i]), properties[names[i]]))
    requires i < |names|
    ensures FieldResults(args, properties, names, env)[i] == FieldDecoded(args, properties, names[i], env)
  {
    if i > 0 {
      FieldResultsAt(args, properties, names[1..], env, i - 1);
    }
  }

  /** The object built from the first `n` results, or the first error among them. */
  function FieldsFrom(names: seq<string>, results: seq<Decoded>, n: nat): Result<map<string, Value>, Error>
    requires n <= |names| == |results|
  {
    if n == 0 then Ok(map[])
    else
      match FieldsFrom(names, results, n - 1)
      case Err(e) => Err(e)
      case Ok(obj) =>
        if results[n - 1].err.Some? then Err(results[n - 1].err.value) else Ok(obj[names[n - 1] := results[n - 1].value])
  }

  /**
   * With distinct names, a built object has exactly the visited names as
   * keys, each holding that name's decoded value, and no visited name failed.
   */
  lemma {:induction false} FieldsFromOk(names: seq<string>, results: seq<Decoded>, n: nat)
    requires n <= |names| == |results|
    requires forall i, j :: 0 <= i < j < |names| ==> names[i] != names[j]
    requires FieldsFrom(names, results, n).Ok?
    ensures forall k :: k in FieldsFrom(names, results, n).value ==> exists i :: 0 <= i < n && names[i] == k
    ensures forall i :: 0 <= i < n ==> (results[i].err.None? && names[i] in FieldsFrom(names, results, n).value
      && FieldsFrom(names, results, n).value[names[i]] == results[i].value)
  {
    if n > 0 {
      FieldsFromOk(names, results, n - 1);
    }
  }

  /** With distinct names, a built object's keys are exactly the names. */
  lemma FieldsFromKeys(names: seq<string>, results: seq<Decoded>, keys: set<string>)
    requires |names| == |results|
    requires forall k :: k in names <==> k in keys
    requires FieldsFrom(names, results, |names|).Ok?
    ensures FieldsFrom(names, results, |names|).value.Keys == keys
  {
    assert names[..|names|] == names;
    forall k ensures k in FieldsFrom(names, results, |names|).value <==> k in keys {
      FieldsFromDomain(names, results, |names|, k);
    }
  }

  /** After `n` names, a built object has a key iff it is one of those names. */
  lemma {:induction false} FieldsFromDomain(names: seq<string>, results: seq<Decoded>, n: nat, k: string)
    requires n <= |names| == |results|
    requires FieldsFrom(names, results, n).Ok?
    ensures k in FieldsFrom(names, results, n).value <==> k in names[..n]
  {
    if n > 0 {
      FieldsFromDomain(names, results, n - 1, k);
      assert names[..n] == names[..n - 1] + [names[n - 1]];
    }
  }

  /** A failure is the error of a visited name. */
  lemma {:induction false} FieldsFromErr(names: seq<string>, results: seq<Decoded>, n: nat)
    requires n <= |names| == |results|
    requires FieldsFrom(names, results, n).Err?
    ensures exists i :: 0 <= i < n && results[i].err == Some(FieldsFrom(names, results, n).error)
  {
    if FieldsFrom(names, results, n - 1).Err? {
      FieldsFromErr(names, results, n - 1);
    }
  }

  /** Once a name fails, visiting more keeps that failure. */
  lemma {:induction false} FieldsFromAbort(names: seq<string>, results: seq<Decoded>, n: nat, m: nat)
    requires n <= m <= |names| == |results|
    requires FieldsFrom(names, results, n).Err?
    ensures FieldsFrom(names, results, m) == FieldsFrom(names, results, n)
    decreases m - n
  {
    if n < m {
      FieldsFromAbort(names, results, n, m - 1);
    }
  }

  /** The properties decoded in key order, or the first error. */
  function FieldsOf(args: seq<(string, string)>, properties: map<string, Schema>, env: FormEnv): Result<map<string, Value>, Error>
    requires forall k :: k in properties ==> Decodable(QueryDecoder(args), k, FieldMethod(env, k), properties[k])
  {
    var names := Ordered(properties.Keys);
    FieldsFrom(names, FieldResults(args, properties, names, env), |names|)
  }

  /** Decoded properties form an object with exactly the declared properties. */
  lemma FieldsOfKeys(args: seq<(string, string)>, properties: map<string, Schema>, env: FormEnv)
    requires forall k :: k in properties ==> Decodable(QueryDecoder(args), k, FieldMethod(env, k), properties[k])
    requires FieldsOf(args, properties, env).Ok?
    ensures FieldsOf(args, properties, env).value.Keys == properties.Keys
  {
    var names := Ordered(properties.Keys);
    FieldsFromKeys(names, FieldResults(args, properties, names, env), properties.Keys);
  }

  /**
   * Each decoded property holds `decodeValue` of that property with
   * `required` false, which reported no error.
   */
  lemma FieldsOfValues(args: seq<(string, string)>, properties: map<string, Schema>, env: FormEnv)
    requires forall k :: k in properties ==> Decodable(QueryDecoder(args), k, FieldMethod(env, k), properties[k])
    requires FieldsOf(args, properties, env).Ok?
    ensures forall k :: k in properties ==>
      FieldDecoded(args, properties, k, env).err.None? && k in FieldsOf(args, properties, env).value
      && FieldsOf(args, properties, env).value[k] == FieldDecoded(args, properties, k, env).value
  {
    forall k | k in properties
      ensures FieldDecoded(args, properties, k, env).err.None? && k in FieldsOf(args, properties, env).value
        && FieldsOf(args, properties, env).value[k] == FieldDecoded(args, properties, k, env).value
    {
      FieldsOfValue(args, properties, env, k);
    }
  }

  /** The decoded property `k` holds `decodeValue` of `k`, which reported no error. */
  lemma FieldsOfValue(args: seq<(string, string)>, properties: map<string, Schema>, env: FormEnv, k: string)
    requires forall k :: k in properties ==> Decodable(QueryDecoder(args), k, FieldMethod(env, k), properties[k])
    requires FieldsOf(args, properties, env).Ok? && k in properties
    ensures FieldDecoded(args, properties, k, env).err.None? && k in FieldsOf(args, properties, env).value
      && FieldsOf(args, properties, env).value[k] == FieldDecoded(args, properties, k, env).value
  {
    var names := Ordered(properties.Keys);
    var results := FieldResults(args, properties, names, env);
    OrderedDistinct(properties.Keys);
    FieldsFromOk(names, results, |names|);
    var i :| 0 <= i < |names| && names[i] == k;
    FieldResultsAt(args, properties, names, env, i);
  }

  /** Decoding the properties fails only with the error of one of them. */
  lemma FieldsOfErr(args: seq<(string, string)>, properties: map<string, Schema>, env: FormEnv)
    requires forall k :: k in properties ==> Decodable(QueryDecoder(args), k, FieldMethod(env, k), properties[k])
    requires FieldsOf(args, properties, env).Err?
    ensures exists k :: (k in properties
      && FieldDecoded(args, properties, k, env).err == Some(FieldsOf(args, properties, env).error))
  {
    var names := Ordered(properties.Keys);
    var results := FieldResults(args, properties, names, env);
    FieldsFromErr(names, results, |names|);
    var i :| 0 <= i < |names| && results[i].err == Some(FieldsOf(args, properties, env).error);
    FieldResultsAt(args, properties, names, env, i);
  }

  /** `urlencodedBodyDecoder` never panics. */
  predicate UrlEncodedSafe(args: seq<(string, string)>, schema: Schema, env: FormEnv) {
    schema.typ == "object" ==>
      ArrayItemsDeclared(schema.properties) && (UrlEncodedCheck(schema).None? ==> FieldsDecodable(args, schema, env))
  }

  /** What `urlencodedBodyDecoder` returns. */
  function UrlEncodedOf(args: seq<(string, string)>, schema: Schema, env: FormEnv): Result<Value, Error>
    requires UrlEncodedSafe(args, schema, env)
  {
    match UrlEncodedCheck(schema)
    case Some(e) => Err(e)
    case None =>
      match FieldsOf(args, schema.properties, env)
      case Err(e) => Err(e)
      case Ok(obj) => Ok(Object(obj))
  }

  /**
   * A decoded url-encoded body passed the schema checks and is an object
   * with exactly the declared properties, each holding `decodeValue` of that
   * property with `required` false, which reported no error.
   */
  lemma UrlEncodedFields(args: seq<(string, string)>, schema: Schema, env: FormEnv)
    requires UrlEncodedSafe(args, schema, env)
    requires UrlEncodedOf(args, schema, env).Ok?
    ensures UrlEncodedCheck(schema).None?
    ensures UrlEncodedOf(args, schema, env).value.Object?
    ensures UrlEncodedOf(args, schema, env).value.fields.Keys == schema.properties.Keys
    ensures forall k :: k in schema.properties ==>
      FieldDecoded(args, schema.properties, k, env).err.None?
      && UrlEncodedOf(args, schema, env).value.fields[k] == FieldDecoded(args, schema.properties, k, env).value
  {
    FieldsOfKeys(args, schema.properties, env);
    FieldsOfValues(args, schema.properties, env);
  }

  /** A url-encoded body that passed the checks fails only with the error of one of its properties. */
  lemma UrlEncodedFailure(args: seq<(string, string)>, schema: Schema, env: FormEnv)
    requires UrlEncodedSafe(args, schema, env)
    requires UrlEncodedCheck(schema).None? && UrlEncodedOf(args, schema, env).Err?
    ensures exists k :: (k in schema.properties
      && FieldDecoded(args, schema.properties, k, env).err == Some(UrlEncodedOf(args, schema, env).error))
  {
    FieldsOfErr(args, schema.properties, env);
  }

  /** `urlencodedBodyDecoder`: checks the schema, then decodes every declared property from the form arguments. */
  method UrlEncodedBodyDecoder(args: seq<(string, string)>, schema: Schema, env: FormEnv) returns (r: Result<Value, Error>)
    requires UrlEncodedSafe(args, schema, env)
    ensures r == UrlEncodedOf(args, schema, env)
  {
    if schema.typ != "object" {
      return Err(Failure(UnsupportedBodySchema));
    }
    var check := CheckProperties(schema.properties);
    if check.Some? {
      return Err(check.value);
    }
    var fields := DecodeFields(args, schema.properties, env);
    if fields.Err? {
      return Err(fields.error);
    }
    return Ok(Object(fields.value));
  }

  /** The property loop of `urlencodedBodyDecoder`'s schema check. */
  method CheckProperties(properties: map<string, Schema>) returns (r: Option<Error>)
    requires ArrayItemsDeclared(properties)
    ensures r == CheckFrom(properties, Ordered(properties.Keys), |properties.Keys|)
  {
    var names := Ordered(properties.Keys);
    assert forall i :: 0 <= i < |names| ==> names[i] in properties;
    for i := 0 to |names|
      invariant CheckFrom(properties, names, i).None?
    {
      var prop := properties[names[i]];
      CheckFromStep(properties, names, i);
      if prop.typ == "object" || (prop.typ == "array" && !IsPrimitiveType(prop.items.value.typ)) {
        CheckFromAbort(properties, names, i + 1, |names|);
        return Some(Failure(UnsupportedPropertySchema(names[i])));
      }
    }
    return None;
  }

  /** The decoding loop of `urlencodedBodyDecoder`: each property in turn, stopping at the first error. */
  method DecodeFields(args: seq<(string, string)>, properties: map<string, Schema>, env: FormEnv) returns (r: Result<map<string, Value>, Error>)
    requires forall k :: k in properties ==> Decodable(QueryDecoder(args), k, FieldMethod(env, k), properties[k])
    ensures r == FieldsOf(args, properties, env)
  {
    var names := Ordered(properties.Keys);
    r := DecodeFieldsIn(args, properties, names, env, FieldResults(args, properties, names, env));
  }

  /** Decodes the properties `names` in turn, stopping at the first error. */
  method DecodeFieldsIn(args: seq<(string, string)>, properties: map<string, Schema>, names: seq<string>, env: FormEnv,
                        ghost results: seq<Decoded>) returns (r: Result<map<string, Value>, Error>)
    requires forall j :: 0 <= j < |names| ==> (names[j] in properties
      && Decodable(QueryDecoder(args), names[j], FieldMethod(env, names[j]), properties[names[j]]))
    requires results == FieldResults(args, properties, names, env)
    ensures r == FieldsFrom(names, results, |names|)
  {
    var obj: map<string, Value> := map[];
    for i := 0 to |names|
      invariant FieldsFrom(names, results, i) == Ok(obj)
    {
      var d := DecodeField(args, properties, names, i, env, results);
      if d.err.Some? {
        FieldsFromAbort(names, results, i + 1, |names|);
        return Err(d.err.value);
      }
      obj := obj[names[i] := d.value];
    }
    return Ok(obj);
  }

  /** Decodes property `names[i]` of a url-encoded body. */
  method DecodeField(args: seq<(string, string)>, properties: map<string, Schema>, names: seq<string>, i: nat, env: FormEnv,
                     ghost results: seq<Decoded>) returns (d: Decoded)
    requires forall j :: 0 <= j < |names| ==> (names[j] in properties
      && Decodable(QueryDecoder(args), names[j], FieldMethod(env, names[j]), properties[names[j]]))
    requires results == FieldResults(args, properties, names, env)
    requires i < |names|
    ensures i < |results| && d == results[i]
  {
    d := DecodeValue(QueryDecoder(args), names[i], FieldMethod(env, names[i]), properties[names[i]], false, env.parseFloat);
    FieldResultsAt(args, properties, names, env, i);
  }
}
