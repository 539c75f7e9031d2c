/**
 * The four location decoders of decode_parameters.go (`pathParamDecoder`,
 * `urlValuesDecoder`, `headerParamDecoder`, `cookieParamDecoder`) and the
 * style rules each applies, after sections 4.7.12.3 and 4.7.12.4 of the
 * OpenAPI Specification 3.0.3.
 *
 * Every decoder works in two steps: a pure step that picks the prefix and
 * delimiters for the (style, explode) pair and cuts the raw text into
 * pieces, and a parsing step (`parseArray`, `propsFromString`,
 * `makeObject`) that loops over the pieces.
 */
module Locations {
  import opened Wrappers
  import opened Text
  import opened Order
  import opened Values
  import opened Primitives

  /** A parameter decoder together with the part of the request its location reads. */
  datatype Decoder =
    | PathDecoder(pathParams: map<string, string>)
    | QueryDecoder(args: seq<(string, string)>)
    | HeaderDecoder(header: map<string, string>)
    | CookieDecoder(cookies: map<string, string>)

  function LocationOf(dec: Decoder): Location {
    match dec
    case PathDecoder(_) => Path
    case QueryDecoder(_) => Query
    case HeaderDecoder(_) => Header
    case CookieDecoder(_) => Cookie
  }

  /** `PeekMulti(name)`: the values of every occurrence of `name` in the query, in order. */
  function Occurrences(args: seq<(string, string)>, name: string): (r: seq<string>)
    ensures |r| <= |args|
  {
    if args == [] then []
    else Occurrences(args[..|args| - 1], name) + (if args[|args| - 1].0 == name then [args[|args| - 1].1] else [])
  }

  /**
   * The raw text a decoder reads for `name`, or `None` when the request does
   * not carry it: a missing or empty path parameter, header or cookie, or a
   * query parameter with no occurrence (the query uses its first occurrence,
   * even when that is empty).
   */
  function Raw(dec: Decoder, name: string): Option<string> {
    match dec
    case PathDecoder(m) => if Lookup(m, name) != "" then Some(m[name]) else None
    case QueryDecoder(args) =>
      var values := Occurrences(args, name);
      if values == [] then None else Some(values[0])
    case HeaderDecoder(h) => if Lookup(h, name) != "" then Some(h[name]) else None
    case CookieDecoder(c) => if Lookup(c, name) != "" then Some(c[name]) else None
  }

  /** The query arguments a decoder sees (none outside the query). */
  function QueryArgs(dec: Decoder): seq<(string, string)> {
    if dec.QueryDecoder? then dec.args else []
  }

  // ---------------------------------------------------------------------
  // The style rules
  // ---------------------------------------------------------------------

  /** How `DecodeArray` cuts a raw value: a required prefix and an item delimiter, or one item per query occurrence. */
  datatype ArrayRule = Delimited(prefix: string, delim: string) | EachOccurrence

  /**
   * How `DecodeObject` finds the properties: a prefix, a property delimiter
   * and a value delimiter; every query argument (exploded form); or the
   * `name[key]` arguments (deepObject).
   */
  datatype ObjectRule = Pairs(prefix: string, propDelim: string, valueDelim: string) | AllArgs | DeepObjectKeys

  /** The matrix prefix `;name=`. */
  function MatrixPrefix(name: string): string {
    ";" + name + "="
  }

  /** The prefix `DecodePrimitive` requires, or `None` when the style is not allowed at the location. */
  function PrimitivePrefix(loc: Location, sm: SerializationMethod, name: string): Option<string> {
    match loc
    case Path =>
      if sm.style == Simple then Some("")
      else if sm.style == Label then Some(".")
      else if sm.style == Matrix then Some(MatrixPrefix(name))
      else None
    case Query => if sm.style == Form then Some("") else None
    case Header => if sm.style == Simple then Some("") else None
    case Cookie => if sm.style == Form then Some("") else None
  }

  /** The item delimiter of a non-exploded query array; Go's zero value `""` for any other style. */
  function QueryDelimiter(style: Style): string {
    if style == Form then ","
    else if style == SpaceDelimited then " "
    else if style == PipeDelimited then "|"
    else ""
  }

  /** The rule `DecodeArray` applies, or `None` when the style is not allowed at the location. */
  function ArrayRuleFor(loc: Location, sm: SerializationMethod, name: string): Option<ArrayRule> {
    match loc
    case Path =>
      if sm.style == Simple then Some(Delimited("", ","))
      else if sm.style == Label then Some(Delimited(".", if sm.explode then "." else ","))
      else if sm.style == Matrix then Some(Delimited(MatrixPrefix(name), if sm.explode then MatrixPrefix(name) else ","))
      else None
    case Query =>
      if sm.style == DeepObject then None
      else if sm.explode then Some(EachOccurrence)
      else Some(Delimited("", QueryDelimiter(sm.style)))
    case Header => if sm.style == Simple then Some(Delimited("", ",")) else None
    case Cookie => if sm.style == Form && !sm.explode then Some(Delimited("", ",")) else None
  }

  /** The rule `DecodeObject` applies, or `None` when the style is not allowed at the location. */
  function ObjectRuleFor(loc: Location, sm: SerializationMethod, name: string): Option<ObjectRule> {
    match loc
    case Path =>
      if sm.style == Simple then Some(Pairs("", ",", if sm.explode then "=" else ","))
      else if sm.style == Label then Some(if sm.explode then Pairs(".", ".", "=") else Pairs(".", ",", ","))
      else if sm.style == Matrix then Some(if sm.explode then Pairs(";", ";", "=") else Pairs(MatrixPrefix(name), ",", ","))
      else None
    case Query =>
      if sm.style == Form then Some(if sm.explode then AllArgs else Pairs("", ",", ","))
      else if sm.style == DeepObject then Some(DeepObjectKeys)
      else None
    case Header => if sm.style == Simple then Some(Pairs("", ",", if sm.explode then "=" else ",")) else None
    case Cookie => if sm.style == Form && !sm.explode then Some(Pairs("", ",", ",")) else None
  }

  // ---------------------------------------------------------------------
  // DecodePrimitive
  // ---------------------------------------------------------------------

  /** The text `DecodePrimitive` hands to `parsePrimitive`, `Ok(None)` when the parameter is absent. */
  function PrimitiveSource(dec: Decoder, name: string, sm: SerializationMethod): Result<Option<string>, Error> {
    match PrimitivePrefix(LocationOf(dec), sm, name)
    case None => Err(SerializationMethodError(sm))
    case Some(prefix) =>
      match Raw(dec, name)
      case None => Ok(None)
      case Some(raw) =>
        match CutPrefix(raw, prefix)
        case Err(e) => Err(e)
        case Ok(src) => Ok(Some(src))
  }

  /** `parsePrimitive` does not panic on what `DecodePrimitive` hands it. */
  predicate PrimitiveParseable(dec: Decoder, name: string, sm: SerializationMethod, schema: Schema) {
    var src := PrimitiveSource(dec, name, sm);
    src.Ok? && src.value.Some? ==> src.value.value == [] || IsPrimitiveType(schema.typ)
  }

  /** `DecodePrimitive` of the decoder's location. */
  function DecodePrimitive(dec: Decoder, name: string, sm: SerializationMethod, schema: Schema,
                           parseFloat: string -> Option<real>): (r: Result<Value, Error>)
    requires PrimitiveParseable(dec, name, sm, schema)
    ensures PrimitivePrefix(LocationOf(dec), sm, name).None? ==> r == Err(SerializationMethodError(sm))
    ensures PrimitivePrefix(LocationOf(dec), sm, name).Some? && Raw(dec, name).None? ==> r == Ok(Null)
    ensures r.Ok? && r.value != Null ==> Raw(dec, name).Some?
  {
    match PrimitiveSource(dec, name, sm)
    case Err(e) => Err(e)
    case Ok(None) => Ok(Null)
    case Ok(Some(src)) => ParsePrimitive(src, schema, parseFloat)
  }

  // ---------------------------------------------------------------------
  // DecodeArray
  // ---------------------------------------------------------------------

  /** The pieces `DecodeArray` hands to `parseArray`, `Ok(None)` when the parameter is absent. */
  function ArrayPieces(dec: Decoder, name: string, sm: SerializationMethod): Result<Option<seq<string>>, Error> {
    match ArrayRuleFor(LocationOf(dec), sm, name)
    case None => Err(SerializationMethodError(sm))
    case Some(rule) =>
      match Raw(dec, name)
      case None => Ok(None)
      case Some(raw) =>
        match rule
        case EachOccurrence => Ok(Some(Occurrences(QueryArgs(dec), name)))
        case Delimited(prefix, delim) =>
          match CutPrefix(raw, prefix)
          case Err(e) => Err(e)
          case Ok(src) => Ok(Some(Split(src, delim)))
  }

  /** `parsePrimitive` does not panic on any piece `DecodeArray` hands to `parseArray`. */
  predicate ArrayParseable(dec: Decoder, name: string, sm: SerializationMethod, schema: Schema) {
    var pieces := ArrayPieces(dec, name, sm);
    pieces.Ok? && pieces.value.Some? ==> ItemsParseable(pieces.value.value, schema)
  }

  /** What `DecodeArray` returns: `Ok(None)` is Go's nil slice with no error. */
  function ArrayOf(dec: Decoder, name: string, sm: SerializationMethod, schema: Schema,
                   parseFloat: string -> Option<real>): Result<Option<seq<Value>>, Error>
    requires ArrayParseable(dec, name, sm, schema)
  {
    match ArrayPieces(dec, name, sm)
    case Err(e) => Err(e)
    case Ok(None) => Ok(None)
    case Ok(Some(pieces)) =>
      match ParsedItems(pieces, |pieces|, schema, parseFloat)
      case Err(e) => Err(e)
      case Ok(items) => Ok(Some(items))
  }

  /** `DecodeArray` of the decoder's location. */
  method DecodeArray(dec: Decoder, name: string, sm: SerializationMethod, schema: Schema,
                     parseFloat: string -> Option<real>) returns (r: Result<Option<seq<Value>>, Error>)
    requires ArrayParseable(dec, name, sm, schema)
    ensures r == ArrayOf(dec, name, sm, schema, parseFloat)
    ensures ArrayRuleFor(LocationOf(dec), sm, name).None? ==> r == Err(SerializationMethodError(sm))
    ensures ArrayRuleFor(LocationOf(dec), sm, name).Some? && Raw(dec, name).None? ==> r == Ok(None)
    ensures r.Ok? && r.value.Some? ==> |r.value.value| == |ArrayPieces(dec, name, sm).value.value|
  {
    var pieces := ArrayPieces(dec, name, sm);
    if pieces.Err? {
      return Err(pieces.error);
    }
    if pieces.value.None? {
      return Ok(None);
    }
    var items := ParseArray(pieces.value.value, schema, parseFloat);
    if items.Err? {
      return Err(items.error);
    }
    return Ok(Some(items.value));
  }

  // ---------------------------------------------------------------------
  // DecodeObject
  // ---------------------------------------------------------------------

  /** The exploded form properties: every query argument, a later one overwriting an earlier one of the same key. */
  function ArgsMap(args: seq<(string, string)>): map<string, string> {
    if args == [] then map[]
    else ArgsMap(args[..|args| - 1])[args[|args| - 1].0 := args[|args| - 1].1]
  }

  /** Every key of the query maps to the value of its last occurrence. */
  lemma {:induction false} ArgsMapLastWins(args: seq<(string, string)>, k: string)
    ensures k in ArgsMap(args) <==> Occurrences(args, k) != []
    ensures k in ArgsMap(args) ==> ArgsMap(args)[k] == Occurrences(args, k)[|Occurrences(args, k)| - 1]
  {
    if args != [] {
      ArgsMapLastWins(args[..|args| - 1], k);
    }
  }

  /** The query values grouped by key, in order, as the deepObject decoder collects them. */
  function Grouped(args: seq<(string, string)>): (r: map<string, seq<string>>)
    ensures forall k :: k in r ==> r[k] != []
  {
    if args == [] then map[]
    else
      var params := Grouped(args[..|args| - 1]);
      var (k, v) := args[|args| - 1];
      params[k := (if k in params then params[k] else []) + [v]]
  }

  /** Grouping keeps, for every key, exactly its occurrences. */
  lemma {:induction false} GroupedOccurrences(args: seq<(string, string)>, k: string)
    ensures k in Grouped(args) <==> Occurrences(args, k) != []
    ensures k in Grouped(args) ==> Grouped(args)[k] == Occurrences(args, k)
  {
    if args != [] {
      GroupedOccurrences(args[..|args| - 1], k);
    }
  }

  /** The position of the `]` that ends a lazy `(.+?)` group, searching from `j`; a newline stops the search. */
  function CloseFrom(key: string, j: nat): (r: Option<nat>)
    ensures r.Some? ==> j <= r.value < |key| && key[r.value] == ']'
    ensures r.Some? ==> forall i :: j <= i < r.value ==> key[i] != ']' && key[i] != '\n'
    decreases |key| - j
  {
    if j >= |key| || key[j] == '\n' then None
    else if key[j] == ']' then Some(j)
    else CloseFrom(key, j + 1)
  }

  /** The capture of `name\[(.+?)\]` for a match starting at `p`. */
  function CaptureAt(name: string, key: string, p: nat): Option<string> {
    var q := p + |name| + 1;
    if q < |key| && key[p..p + |name|] == name && key[p + |name|] == '[' && key[q] != '\n' then
      match CloseFrom(key, q + 1)
      case Some(j) => Some(key[q..j])
      case None => None
    else None
  }

  /** The capture of the leftmost match at or after `p`. */
  function CaptureFrom(name: string, key: string, p: nat): Option<string>
    decreases |key| - p
  {
    if p >= |key| then None
    else
      match CaptureAt(name, key, p)
      case Some(c) => Some(c)
      case None => CaptureFrom(name, key, p + 1)
  }

  /**
   * The first capture of the unanchored regular expression `name\[(.+?)\]` in
   * a query key, with `name` read literally.
   */
  function DeepObjectCapture(name: string, key: string): (r: Option<string>)
    ensures r.Some? ==> r.value != [] && '\n' !in r.value
  {
    if CaptureFrom(name, key, 0).Some? then CaptureShape(name, key, 0); CaptureFrom(name, key, 0)
    else None
  }

  /** `CloseFrom` finds the first `]` when nothing before it is `]` or a newline. */
  lemma {:induction false} CloseFromFinds(key: string, j: nat, k: nat)
    requires j <= k < |key| && key[k] == ']'
    requires forall i :: j <= i < k ==> key[i] != ']' && key[i] != '\n'
    ensures CloseFrom(key, j) == Some(k)
    decreases k - j
  {
    if j < k {
      CloseFromFinds(key, j + 1, k);
    }
  }

  /** A capture is non-empty, holds no newline, and `name[capture]` occurs in the key. */
  lemma {:induction false} CaptureShape(name: string, key: string, p: nat)
    requires CaptureFrom(name, key, p).Some?
    ensures var c := CaptureFrom(name, key, p).value;
      c != [] && '\n' !in c && exists j :: OccursAt(key, name + "[" + c + "]", j)
    decreases |key| - p
  {
    if CaptureAt(name, key, p).None? {
      CaptureShape(name, key, p + 1);
    } else {
      var q := p + |name| + 1;
      var j := CloseFrom(key, q + 1).value;
      var c := key[q..j];
      assert key[p..j + 1] == name + "[" + c + "]" by {
        assert key[p..j + 1] == key[p..p + |name|] + [key[p + |name|]] + key[q..j] + [key[j]];
      }
      assert OccursAt(key, name + "[" + c + "]", p);
    }
  }

  /** The deepObject encoding `name[key]` of a property gives back that property's key. */
  lemma DeepObjectKeyRoundTrip(name: string, c: string)
    requires c != [] && ']' !in c && '\n' !in c
    ensures DeepObjectCapture(name, name + "[" + c + "]") == Some(c)
  {
    var key := name + "[" + c + "]";
    var q := |name| + 1;
    assert key[..|name|] == name;
    assert key[|name|] == '[';
    assert key[q..q + |c|] == c;
    forall i | q + 1 <= i < q + |c| ensures key[i] != ']' && key[i] != '\n' {
      assert key[i] == c[i - q];
    }
    CloseFromFinds(key, q + 1, q + |c|);
  }

  /** The properties of the first `n` keys: each key's capture maps to the key's first value. */
  function DeepFrom(name: string, params: map<string, seq<string>>, keys: seq<string>, n: nat): map<string, string>
    requires n <= |keys| && forall i :: 0 <= i < |keys| ==> keys[i] in params && params[keys[i]] != []
  {
    if n == 0 then map[]
    else
      var props := DeepFrom(name, params, keys, n - 1);
      match DeepObjectCapture(name, keys[n - 1])
      case None => props
      case Some(c) => props[c := params[keys[n - 1]][0]]
  }

  /** The deepObject properties: the query keys, grouped, visited in the model's fixed order. */
  function DeepObjectProps(name: string, args: seq<(string, string)>): map<string, string> {
    var params := Grouped(args);
    var keys := Ordered(params.Keys);
    DeepFrom(name, params, keys, |keys|)
  }

  /** The properties of the first `n` keys are exactly their captures. */
  lemma {:induction false} DeepFromKeys(name: string, params: map<string, seq<string>>, keys: seq<string>, n: nat, c: string)
    requires n <= |keys| && forall i :: 0 <= i < |keys| ==> keys[i] in params && params[keys[i]] != []
    ensures c in DeepFrom(name, params, keys, n) <==> exists i :: 0 <= i < n && DeepObjectCapture(name, keys[i]) == Some(c)
  {
    if n > 0 {
      DeepFromKeys(name, params, keys, n - 1, c);
      if DeepObjectCapture(name, keys[n - 1]) == Some(c) {
        assert 0 <= n - 1 < n && DeepObjectCapture(name, keys[n - 1]) == Some(c);
      }
    }
  }

  /** Each property of the first `n` keys holds the first value of one of them with that capture. */
  lemma {:induction false} DeepFromValues(name: string, params: map<string, seq<string>>, keys: seq<string>, n: nat, c: string)
    returns (i: nat)
    requires n <= |keys| && forall i :: 0 <= i < |keys| ==> keys[i] in params && params[keys[i]] != []
    requires c in DeepFrom(name, params, keys, n)
    ensures i < n && DeepObjectCapture(name, keys[i]) == Some(c) && DeepFrom(name, params, keys, n)[c] == params[keys[i]][0]
  {
    if DeepObjectCapture(name, keys[n - 1]) == Some(c) {
      i := n - 1;
    } else {
      i := DeepFromValues(name, params, keys, n - 1, c);
    }
  }

  /** The deepObject properties are exactly the captures of the keys present in the query. */
  lemma DeepObjectPropsKeys(name: string, args: seq<(string, string)>, c: string)
    ensures c in DeepObjectProps(name, args) <==>
      exists key :: Occurrences(args, key) != [] && DeepObjectCapture(name, key) == Some(c)
  {
    var params := Grouped(args);
    var keys := Ordered(params.Keys);
    DeepFromKeys(name, params, keys, |keys|, c);
    if c in DeepObjectProps(name, args) {
      var j :| 0 <= j < |keys| && DeepObjectCapture(name, keys[j]) == Some(c);
      GroupedOccurrences(args, keys[j]);
    }
    if exists key :: Occurrences(args, key) != [] && DeepObjectCapture(name, key) == Some(c) {
      var key :| Occurrences(args, key) != [] && DeepObjectCapture(name, key) == Some(c);
      GroupedOccurrences(args, key);
      assert key in keys;
      var j :| 0 <= j < |keys| && keys[j] == key;
      assert 0 <= j < |keys| && DeepObjectCapture(name, keys[j]) == Some(c);
    }
  }

  /**
   * Each deepObject property holds the first value of some query key with
   * that capture (which key, when several share a capture, depends on the
   * map order).
   */
  lemma DeepObjectPropsValues(name: string, args: seq<(string, string)>, c: string)
    requires c in DeepObjectProps(name, args)
    ensures exists key :: (Occurrences(args, key) != [] && DeepObjectCapture(name, key) == Some(c)
      && DeepObjectProps(name, args)[c] == Occurrences(args, key)[0])
  {
    var params := Grouped(args);
    var keys := Ordered(params.Keys);
    var props := DeepFrom(name, params, keys, |keys|);
    assert DeepObjectProps(name, args) == props;
    assert forall i :: 0 <= i < |keys| ==> keys[i] in params && params[keys[i]] != [];
    var j := DeepFromValues(name, params, keys, |keys|, c);
    var key := keys[j];
    assert params[key] == Occurrences(args, key) by {
      GroupedOccurrences(args, key);
    }
  }

  /** The properties `DecodeObject` hands to `makeObject`, `Ok(None)` when there are none. */
  function ObjectProps(dec: Decoder, name: string, sm: SerializationMethod): Result<Option<map<string, string>>, Error> {
    match ObjectRuleFor(LocationOf(dec), sm, name)
    case None => Err(SerializationMethodError(sm))
    case Some(Pairs(prefix, propDelim, valueDelim)) =>
      match Raw(dec, name) {
        case None => Ok(None)
        case Some(raw) =>
          match CutPrefix(raw, prefix) {
            case Err(e) => Err(e)
            case Ok(src) =>
              match Props(src, propDelim, valueDelim) {
                case Err(e) => Err(e)
                case Ok(props) => Ok(Some(props))
              }
          }
      }
    case Some(AllArgs) =>
      if QueryArgs(dec) == [] then Ok(None) else Ok(Some(ArgsMap(QueryArgs(dec))))
    case Some(DeepObjectKeys) =>
      var props := DeepObjectProps(name, QueryArgs(dec));
      if props == map[] then Ok(None) else Ok(Some(props))
  }

  /** `parsePrimitive` does not panic on any property `DecodeObject` hands to `makeObject`. */
  predicate ObjectParseable(dec: Decoder, name: string, sm: SerializationMethod, schema: Schema) {
    var props := ObjectProps(dec, name, sm);
    props.Ok? && props.value.Some? ==> PropertiesParseable(props.value.value, schema.properties)
  }

  /** What `DecodeObject` returns: `Ok(None)` is Go's nil map with no error. */
  function ObjectValueOf(dec: Decoder, name: string, sm: SerializationMethod, schema: Schema,
                         parseFloat: string -> Option<real>): Result<Option<map<string, Value>>, Error>
    requires ObjectParseable(dec, name, sm, schema)
  {
    match ObjectProps(dec, name, sm)
    case Err(e) => Err(e)
    case Ok(None) => Ok(None)
    case Ok(Some(props)) =>
      match ObjectOf(props, schema, parseFloat)
      case Err(e) => Err(e)
      case Ok(obj) => Ok(Some(obj))
  }

  /** The deepObject loop: each grouped key whose capture matches stores its first value. */
  method CollectDeepObject(name: string, args: seq<(string, string)>) returns (props: map<string, string>)
    ensures props == DeepObjectProps(name, args)
  {
    var params := GroupArgs(args);
    var keys := Ordered(params.Keys);
    props := CaptureProps(name, params, keys);
  }

  /** The grouping loop of the deepObject decoder: each argument appended under its key. */
  method GroupArgs(args: seq<(string, string)>) returns (params: map<string, seq<string>>)
    ensures params == Grouped(args)
  {
    params := map[];
    for i := 0 to |args|
      invariant params == Grouped(args[..i])
    {
      var (k, v) := args[i];
      assert args[..i + 1][..i] == args[..i];
      params := params[k := (if k in params then params[k] else []) + [v]];
    }
    assert args[..|args|] == args;
  }

  /** The capture loop of the deepObject decoder: the first value of each matching key, keys in order. */
  method CaptureProps(name: string, params: map<string, seq<string>>, keys: seq<string>) returns (props: map<string, string>)
    requires forall i :: 0 <= i < |keys| ==> keys[i] in params && params[keys[i]] != []
    ensures props == DeepFrom(name, params, keys, |keys|)
  {
    props := map[];
    for i := 0 to |keys|
      invariant props == DeepFrom(name, params, keys, i)
    {
      var c := DeepObjectCapture(name, keys[i]);
      if c.Some? {
        props := props[c.value := params[keys[i]][0]];
      }
    }
  }

  /** The exploded form loop: every query argument stored in order. */
  method CollectArgs(args: seq<(string, string)>) returns (props: map<string, string>)
    ensures props == ArgsMap(args)
  {
    props := map[];
    for i := 0 to |args|
      invariant props == ArgsMap(args[..i])
    {
      assert args[..i + 1][..i] == args[..i];
      props := props[args[i].0 := args[i].1];
    }
    assert args[..|args|] == args;
  }

  /** `DecodeObject` of the decoder's location. */
  method DecodeObject(dec: Decoder, name: string, sm: SerializationMethod, schema: Schema,
                      parseFloat: string -> Option<real>) returns (r: Result<Option<map<string, Value>>, Error>)
    requires ObjectParseable(dec, name, sm, schema)
    ensures r == ObjectValueOf(dec, name, sm, schema, parseFloat)
    ensures ObjectRuleFor(LocationOf(dec), sm, name).None? ==> r == Err(SerializationMethodError(sm))
    ensures r.Ok? && r.value.Some? ==> r.value.value.Keys == schema.properties.Keys
  {
    var props: Option<map<string, string>>;
    match ObjectRuleFor(LocationOf(dec), sm, name) {
      case None =>
        return Err(SerializationMethodError(sm));
      case Some(Pairs(prefix, propDelim, valueDelim)) =>
        var raw := Raw(dec, name);
        if raw.None? {
          return Ok(None);
        }
        var src := CutPrefix(raw.value, prefix);
        if src.Err? {
          return Err(src.error);
        }
        var parsed := PropsFromString(src.value, propDelim, valueDelim);
        if parsed.Err? {
          return Err(parsed.error);
        }
        props := Some(parsed.value);
      case Some(AllArgs) =>
        if QueryArgs(dec) == [] {
          return Ok(None);
        }
        var all := CollectArgs(QueryArgs(dec));
        props := Some(all);
      case Some(DeepObjectKeys) =>
        var found := CollectDeepObject(name, QueryArgs(dec));
        props := if found == map[] then None else Some(found);
    }
    if props.None? {
      return Ok(None);
    }
    var obj := MakeObject(props.value, schema, parseFloat);
    if obj.Err? {
      return Err(obj.error);
    }
    ObjectOfKeys(props.value, schema, parseFloat);
    return Ok(Some(obj.value));
  }

  // ---------------------------------------------------------------------
  // Style round trips and the query rules
  // ---------------------------------------------------------------------

  /** `sep` first occurs in `item + sep` at its end: `item` can be followed by `sep` and split back off. */
  predicate Delimits(sep: string, item: string)
    requires sep != []
  {
    IndexOf(item + sep, sep) == |item|
  }

  /** For a one-character delimiter, an item delimits iff it does not contain that character. */
  lemma DelimitsChar(c: char, item: string)
    ensures Delimits([c], item) <==> c !in item
  {
    if c in item {
      var j :| 0 <= j < |item| && item[j] == c;
      assert (item + [c])[j..j + 1] == [c];
      assert OccursAt(item + [c], [c], j);
    } else {
      forall j | 0 <= j < |item| ensures !OccursAt(item + [c], [c], j) {
        assert (item + [c])[j..j + 1] == [item[j]];
      }
      assert (item + [c])[|item|..|item| + 1] == [c];
      IndexOfIs(item + [c], [c], |item|);
    }
  }

  /** The first occurrence is the one with none before it. */
  lemma IndexOfIs(s: string, sep: string, r: nat)
    requires sep != [] && OccursAt(s, sep, r)
    requires forall j :: 0 <= j < r ==> !OccursAt(s, sep, j)
    ensures IndexOf(s, sep) == r
  {
  }

  /** An item that delimits `sep` does not contain it. */
  lemma DelimitsAlone(a: string, sep: string)
    requires sep != [] && Delimits(sep, a)
    ensures IndexOf(a, sep) == -1
  {
    forall j | 0 <= j ensures !OccursAt(a, sep, j) {
      if OccursAt(a, sep, j) {
        assert (a + sep)[j..j + |sep|] == a[j..j + |sep|];
        assert OccursAt(a + sep, sep, j);
      }
    }
  }

  /** An item that delimits `sep`, followed by `sep` and anything, splits off at its end. */
  lemma DelimitsFirst(a: string, sep: string, b: string)
    requires sep != [] && Delimits(sep, a)
    ensures IndexOf(a + sep + b, sep) == |a|
  {
    var s := a + sep + b;
    forall j | 0 <= j < |a| ensures !OccursAt(s, sep, j) {
      if OccursAt(s, sep, j) {
        assert (a + sep)[j..j + |sep|] == s[j..j + |sep|];
        assert OccursAt(a + sep, sep, j);
      }
    }
    assert s[|a|..|a| + |sep|] == sep;
    IndexOfIs(s, sep, |a|);
  }

  /** Joining items that each delimit `sep`, then splitting on `sep`, gives the items back. */
  lemma {:induction false} JoinSplit(items: seq<string>, sep: string)
    requires sep != [] && |items| >= 1
    requires forall i :: 0 <= i < |items| ==> Delimits(sep, items[i])
    ensures Split(Join(items, sep), sep) == items
  {
    var a := items[0];
    assert Delimits(sep, a);
    if |items| == 1 {
      DelimitsAlone(a, sep);
    } else {
      var rest := items[1..];
      var joined := Join(rest, sep);
      JoinSplit(rest, sep);
      var s := a + sep + joined;
      assert Join(items, sep) == s;
      DelimitsFirst(a, sep, joined);
      assert s[..|a|] == a;
      assert s[|a| + |sep|..] == joined;
      SplitFound(s, sep);
      assert items == [a] + rest;
    }
  }

  /**
   * A delimited style decodes its own encoding: when the raw value is the
   * style prefix followed by the items joined with the style delimiter,
   * `DecodeArray` cuts out exactly those items.
   */
  lemma DelimitedRoundTrip(dec: Decoder, name: string, sm: SerializationMethod, items: seq<string>)
    requires ArrayRuleFor(LocationOf(dec), sm, name).Some? && ArrayRuleFor(LocationOf(dec), sm, name).value.Delimited?
    requires var rule := ArrayRuleFor(LocationOf(dec), sm, name).value;
      rule.delim != [] && |items| >= 1 && (forall i :: 0 <= i < |items| ==> Delimits(rule.delim, items[i]))
      && Raw(dec, name) == Some(rule.prefix + Join(items, rule.delim))
    ensures ArrayPieces(dec, name, sm) == Ok(Some(items))
  {
    var rule := ArrayRuleFor(LocationOf(dec), sm, name).value;
    var raw := rule.prefix + Join(items, rule.delim);
    assert raw[..|rule.prefix|] == rule.prefix;
    assert raw[|rule.prefix|..] == Join(items, rule.delim);
    JoinSplit(items, rule.delim);
  }

  /** A path array in the simple style, e.g. `3,4,5`, decodes to its items. */
  lemma PathSimpleArrayExample(name: string, explode: bool)
    ensures ArrayPieces(PathDecoder(map[name := "3,4,5"]), name, SerializationMethod(Simple, explode)) == Ok(Some(["3", "4", "5"]))
  {
    var items := ["3", "4", "5"];
    var dec := PathDecoder(map[name := "3,4,5"]);
    assert Join(items, ",") == "3,4,5";
    assert Lookup(dec.pathParams, name) == "3,4,5";
    assert "" + Join(items, ",") == "3,4,5";
    forall i | 0 <= i < |items| ensures Delimits(",", items[i]) {
      DelimitsChar(',', items[i]);
    }
    DelimitedRoundTrip(PathDecoder(map[name := "3,4,5"]), name, SerializationMethod(Simple, explode), items);
  }

  /**
   * A query array: no occurrence is nil; exploded, every occurrence is one
   * item; otherwise only the first occurrence is split on the style's
   * delimiter; deepObject is not allowed.
   */
  lemma QueryArrayPieces(args: seq<(string, string)>, name: string, sm: SerializationMethod)
    ensures var values := Occurrences(args, name);
      var pieces := ArrayPieces(QueryDecoder(args), name, sm);
      && (sm.style == DeepObject ==> pieces == Err(SerializationMethodError(sm)))
      && (sm.style != DeepObject && values == [] ==> pieces == Ok(None))
      && (sm.style != DeepObject && values != [] && sm.explode ==> pieces == Ok(Some(values)))
      && (sm.style != DeepObject && values != [] && !sm.explode ==>
            pieces == Ok(Some(Split(values[0], QueryDelimiter(sm.style)))))
  {
  }
}
