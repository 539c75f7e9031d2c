/**
 * Struct-tag parsing (field_resolver.go): the `oai:"..."` tag of a struct
 * field split into key/value pairs, the field-level rules `required`,
 * `name` and `shouldEmbed`, and the copying of tag values into a schema by
 * `resolveGeneric`, `resolveString` and `resolveArray`.
 *
 * A struct field is abstracted to what these functions read of it: its Go
 * name, whether its type is a pointer, whether it is embedded, its `oai`
 * tag (absent or present) and its `json` tag (`""` when absent).
 */
module FieldTags {
  import opened Wrappers
  import opened Text
  import opened Order
  import opened Utils

  datatype StructField = StructField(
    goName: string,
    isPointer: bool,
    anonymous: bool,
    oaiTag: Option<string>,
    jsonTag: string)

  /** `fieldResolver`: the field, whether the tag asks to ignore it, and the parsed tag pairs. */
  datatype FieldResolver = FieldResolver(field: StructField, ignored: bool, tagPairs: map<string, string>)

  /** One `;`-separated tag item, trimmed and split on `=`: exactly two parts give a pair, anything else a bare key. */
  function TagPair(item: string): (string, string) {
    var pair := Split(TrimSpace(item), "=");
    if |pair| == 2 then (TrimSpace(pair[0]), TrimSpace(pair[1])) else (TrimSpace(pair[0]), "")
  }

  /** A map filled from a list of items in order, a later item overwriting an earlier one with the same key. */
  function MapOf<T, K, V>(items: seq<T>, pair: T -> (K, V)): map<K, V> {
    if items == [] then map[]
    else
      var p := pair(items[|items| - 1]);
      MapOf(items[..|items| - 1], pair)[p.0 := p.1]
  }

  /** The keys are exactly the keys of the items' pairs. */
  lemma {:induction false} MapOfKeys<T, K, V>(items: seq<T>, pair: T -> (K, V), k: K)
    ensures k in MapOf(items, pair) <==> exists i :: 0 <= i < |items| && pair(items[i]).0 == k
  {
    if items != [] {
      var init := items[..|items| - 1];
      MapOfKeys(init, pair, k);
      if k in MapOf(init, pair) {
        var i :| 0 <= i < |init| && pair(init[i]).0 == k;
        assert items[i] == init[i];
      }
      if exists i :: 0 <= i < |items| && pair(items[i]).0 == k {
        var i :| 0 <= i < |items| && pair(items[i]).0 == k;
        if i < |init| {
          assert items[i] == init[i];
        }
      }
    }
  }

  /** An item's value is kept unless a later item repeats its key. */
  lemma {:induction false} MapOfLastWins<T, K, V>(items: seq<T>, pair: T -> (K, V), i: nat)
    requires i < |items|
    requires forall j :: i < j < |items| ==> pair(items[j]).0 != pair(items[i]).0
    ensures pair(items[i]).0 in MapOf(items, pair)
    ensures MapOf(items, pair)[pair(items[i]).0] == pair(items[i]).1
  {
    var init := items[..|items| - 1];
    if i < |items| - 1 {
      assert init[i] == items[i];
      forall j | i < j < |init| ensures pair(init[j]).0 != pair(init[i]).0 {
        assert init[j] == items[j];
      }
      MapOfLastWins(init, pair, i);
    }
  }

  /** Adding one more item updates the map with its pair. */
  lemma MapOfStep<T, K, V>(items: seq<T>, pair: T -> (K, V), i: nat)
    requires i < |items|
    ensures MapOf(items[..i + 1], pair) == MapOf(items[..i], pair)[pair(items[i]).0 := pair(items[i]).1]
  {
    assert items[..i + 1][..i] == items[..i];
  }

  /** One item gives one pair. */
  lemma MapOfSingle<T, K, V>(item: T, pair: T -> (K, V))
    ensures MapOf([item], pair) == map[pair(item).0 := pair(item).1]
  {
    assert [item][..0] == [];
  }

  /** What `newFieldResolver` builds for a field. */
  function ResolverOf(f: StructField): (r: FieldResolver)
    ensures r.field == f
    ensures f.oaiTag.None? ==> !r.ignored && r.tagPairs == map[]
    ensures f.oaiTag.Some? ==> (r.ignored <==> Split(f.oaiTag.value, ";")[0] == "-")
    ensures r.ignored ==> r.tagPairs == map[]
  {
    match f.oaiTag
    case None => FieldResolver(f, false, map[])
    case Some(tag) =>
      var items := Split(tag, ";");
      if items[0] == "-" then FieldResolver(f, true, map[])
      else FieldResolver(f, false, MapOf(items, TagPair))
  }

  /** One item of the tag: trimmed, split at `=`, both halves trimmed; an item without exactly one `=` has an empty value. */
  method SplitTagItem(item: string) returns (key: string, value: string)
    ensures (key, value) == TagPair(item)
  {
    var tag := TrimSpace(item);
    var pair := Split(tag, "=");
    key, value := TrimSpace(pair[0]), "";
    if |pair| == 2 {
      value := TrimSpace(pair[1]);
    }
  }

  /** `newFieldResolver`: parses the field's `oai` tag item by item. */
  method NewFieldResolver(f: StructField) returns (r: FieldResolver)
    ensures r == ResolverOf(f)
  {
    r := FieldResolver(f, false, map[]);
    if f.oaiTag.Some? {
      var tags := Split(f.oaiTag.value, ";");
      if tags[0] == "-" {
        r := r.(ignored := true);
        return;
      }
      var pairs: map<string, string> := map[];
      for i := 0 to |tags|
        invariant pairs == MapOf(tags[..i], TagPair)
      {
        var key, value := SplitTagItem(tags[i]);
        MapOfStep(tags, TagPair, i);
        pairs := pairs[key := value];
      }
      assert tags[..|tags|] == tags;
      r := r.(tagPairs := pairs);
    }
  }

  /** `required`: true unless the field is a pointer, and an explicit `required` tag decides instead. */
  function Required(r: FieldResolver): (b: bool)
    ensures "required" !in r.tagPairs ==> (b <==> !r.field.isPointer)
    ensures "required" in r.tagPairs ==> b == ToBool(r.tagPairs["required"])
  {
    var required := !r.field.isPointer;
    if "required" in r.tagPairs then ToBool(r.tagPairs["required"]) else required
  }

  /** `name`: the Go name, else the first comma-separated part of the `json` tag. */
  function Name(r: FieldResolver): (n: string)
    ensures r.field.goName != "" ==> n == r.field.goName
    ensures r.field.goName == "" && r.field.jsonTag != "" ==> !Contains(n, ",")
    ensures r.field.goName == "" && ',' !in r.field.jsonTag ==> n == r.field.jsonTag
  {
    if r.field.goName != "" then r.field.goName
    else if r.field.jsonTag != "" then
      JsonTagName(r.field.jsonTag);
      Split(r.field.jsonTag, ",")[0]
    else r.field.goName
  }

  /** The first comma-separated part of a `json` tag holds no comma, and is the whole tag when it has none. */
  lemma JsonTagName(tag: string)
    ensures !Contains(Split(tag, ",")[0], ",")
    ensures ',' !in tag ==> Split(tag, ",")[0] == tag
  {
    SplitPiecesAvoidSeparator(tag, ",");
    if ',' !in tag {
      SplitCharNone(tag, ',');
    }
  }

  /** `shouldEmbed`: only an embedded field that the tag does not ignore is flattened into its parent. */
  function ShouldEmbed(r: FieldResolver): (b: bool)
    ensures b <==> r.field.anonymous && !r.ignored
  {
    r.field.anonymous && !r.ignored
  }

  /** `TrimSpace` leaves a string alone when neither end is white space. */
  lemma TrimSpaceNoop(s: string)
    requires s == [] || (!IsSpace(s[0]) && !IsSpace(s[|s| - 1]))
    ensures TrimSpace(s) == s
  {
  }

  /** A trimmed string. */
  predicate Trimmed(s: string) {
    s == [] || (!IsSpace(s[0]) && !IsSpace(s[|s| - 1]))
  }

  /** An item without `=` is a bare key with an empty value. */
  lemma TagPairBare(item: string)
    requires '=' !in item && Trimmed(item)
    ensures TagPair(item) == (item, "")
  {
    TrimSpaceNoop(item);
    SplitCharNone(item, '=');
  }

  /** An item `key=value` with one `=` gives exactly that pair. */
  lemma TagPairKeyValue(key: string, value: string)
    requires '=' !in key && '=' !in value && key != [] && Trimmed(key) && Trimmed(value)
    ensures TagPair(key + "=" + value) == (key, value)
  {
    var item := key + "=" + value;
    assert Trimmed(item);
    TrimSpaceNoop(item);
    SplitCharFirst(key, '=', value);
    SplitCharNone(value, '=');
    assert item == key + ['='] + value;
    var pair := Split(TrimSpace(item), "=");
    assert pair == [key, value];
    TrimSpaceNoop(key);
    TrimSpaceNoop(value);
    assert TagPair(item) == (TrimSpace(pair[0]), TrimSpace(pair[1]));
  }

  /** A field without an `oai` tag is not ignored, has no tag pairs, and is required iff it is not a pointer. */
  lemma Untagged(f: StructField)
    requires f.oaiTag.None?
    ensures var r := ResolverOf(f);
      && !r.ignored && r.tagPairs == map[]
      && (Required(r) <==> !f.isPointer)
      && (ShouldEmbed(r) <==> f.anonymous)
  {
  }

  /** A tag whose first item is `-` ignores the field: no pairs, and never embedded. */
  lemma IgnoredTag(f: StructField, rest: string)
    requires f.oaiTag == Some("-;" + rest) || f.oaiTag == Some("-")
    ensures var r := ResolverOf(f);
      && r.ignored && r.tagPairs == map[] && !ShouldEmbed(r)
  {
    var tag := f.oaiTag.value;
    if tag == "-" {
      SplitCharNone(tag, ';');
    } else {
      assert tag == "-" + [';'] + rest;
      SplitCharFirst("-", ';', rest);
    }
  }

  /** A tag of one item that is not `-` holds exactly that item's pair. */
  lemma SingleItemTag(f: StructField, item: string)
    requires f.oaiTag == Some(item) && ';' !in item && item != "-"
    ensures !ResolverOf(f).ignored
    ensures ResolverOf(f).tagPairs == map[TagPair(item).0 := TagPair(item).1]
  {
    SplitCharNone(item, ';');
    MapOfSingle(item, TagPair);
  }

  /** The facts about the literal tag items below that the general lemmas need. */
  lemma RequiredWords(key: string, value: string)
    requires key == "required" && value == "false"
    ensures '=' !in key && ';' !in key && key != "-" && Trimmed(key)
    ensures '=' !in value && Trimmed(value) && !ToBool(value)
    ensures ';' !in key + "=" + value && key + "=" + value != "-"
  {
    assert Primitives.ParseBool(value) == Some(false);
  }

  /** The tag `oai:"required"` makes even a pointer field required: an empty value reads as true. */
  lemma RequiredBareTag(f: StructField, key: string)
    requires key == "required" && f.oaiTag == Some(key)
    ensures Required(ResolverOf(f))
  {
    RequiredWords(key, "false");
    TagPairBare(key);
    SingleItemTag(f, key);
  }

  /** The tag `oai:"required=false"` makes even a plain field optional. */
  lemma RequiredFalseTag(f: StructField, key: string, value: string)
    requires key == "required" && value == "false" && f.oaiTag == Some(key + "=" + value)
    ensures !Required(ResolverOf(f))
  {
    RequiredWords(key, value);
    TagPairKeyValue(key, value);
    SingleItemTag(f, key + "=" + value);
  }

  // ---------------------------------------------------------------------
  // Copying tag values into a schema
  // ---------------------------------------------------------------------

  /** A keyword value: the `interface{}` of `Default`, `Example` and the `Enum` items. */
  datatype Any = Nil | Str(s: string) | Int(i: int) | Float(x: real) | Slice(items: seq<Any>)

  /** The annotation keywords `resolveGeneric` writes. */
  datatype Annotations = Annotations(
    typ: string,
    title: string,
    description: string,
    deprecated: bool,
    allowEmptyValue: bool,
    nullable: bool,
    readOnly: bool,
    writeOnly: bool)

  /** The string keywords; `maxLength` is a pointer in the source. */
  datatype StringBounds = StringBounds(minLength: nat, maxLength: Option<nat>, pattern: string, format: string)

  /**
   * The array keywords; `maxItems` is a pointer in the source, and
   * `itemsType` is the type of the `items` schema, `None` when there is none.
   */
  datatype ArrayBounds = ArrayBounds(minItems: nat, maxItems: Option<nat>, uniqueItems: bool, itemsType: Option<string>)

  /** The value keywords shared by strings and arrays. */
  datatype Examples = Examples(enum: seq<Any>, defaultValue: Any, example: Any)

  /** The schema keywords the resolvers write, grouped by the resolver that writes them. */
  datatype SchemaDoc = SchemaDoc(annotations: Annotations, strings: StringBounds, arrays: ArrayBounds, examples: Examples)

  /** The tag's value for `key`, else the schema's current text. */
  function TextOr(pairs: map<string, string>, key: string, current: string): string {
    if key in pairs then pairs[key] else current
  }

  /** The tag's value for `key` read by `toBool`, else the schema's current flag. */
  function FlagOr(pairs: map<string, string>, key: string, current: bool): bool {
    if key in pairs then ToBool(pairs[key]) else current
  }

  /** The tag's value for `key` read by `toUint`, else the schema's current bound. */
  function BoundOr(pairs: map<string, string>, key: string, current: nat): nat {
    if key in pairs then ToUint(pairs[key]) else current
  }

  /** The tag's value for `key` read by `toUint` into a fresh pointer, else the schema's current pointer. */
  function LimitOr(pairs: map<string, string>, key: string, current: Option<nat>): Option<nat> {
    if key in pairs then Some(ToUint(pairs[key])) else current
  }

  /** `TextOr`, `FlagOr`, `BoundOr` and `LimitOr` counting only the keys visited so far. */
  function TextSeen(pairs: map<string, string>, seen: set<string>, key: string, current: string): string {
    if key in seen && key in pairs then pairs[key] else current
  }

  function FlagSeen(pairs: map<string, string>, seen: set<string>, key: string, current: bool): bool {
    if key in seen && key in pairs then ToBool(pairs[key]) else current
  }

  function BoundSeen(pairs: map<string, string>, seen: set<string>, key: string, current: nat): nat {
    if key in seen && key in pairs then ToUint(pairs[key]) else current
  }

  function LimitSeen(pairs: map<string, string>, seen: set<string>, key: string, current: Option<nat>): Option<nat> {
    if key in seen && key in pairs then Some(ToUint(pairs[key])) else current
  }

  /** Visiting one more key changes only the keyword it names. */
  lemma TextSeenStep(pairs: map<string, string>, seen: set<string>, tag: string, key: string, current: string)
    requires tag in pairs
    ensures TextSeen(pairs, seen + {tag}, key, current) == if tag == key then pairs[tag] else TextSeen(pairs, seen, key, current)
  {
  }

  lemma FlagSeenStep(pairs: map<string, string>, seen: set<string>, tag: string, key: string, current: bool)
    requires tag in pairs
    ensures FlagSeen(pairs, seen + {tag}, key, current) == if tag == key then ToBool(pairs[tag]) else FlagSeen(pairs, seen, key, current)
  {
  }

  lemma BoundSeenStep(pairs: map<string, string>, seen: set<string>, tag: string, key: string, current: nat)
    requires tag in pairs
    ensures BoundSeen(pairs, seen + {tag}, key, current) == if tag == key then ToUint(pairs[tag]) else BoundSeen(pairs, seen, key, current)
  {
  }

  lemma LimitSeenStep(pairs: map<string, string>, seen: set<string>, tag: string, key: string, current: Option<nat>)
    requires tag in pairs
    ensures LimitSeen(pairs, seen + {tag}, key, current) == if tag == key then Some(ToUint(pairs[tag])) else LimitSeen(pairs, seen, key, current)
  {
  }

  /** The annotation keywords after visiting the keys `seen`, starting from `a0`. */
  predicate Annotated(pairs: map<string, string>, seen: set<string>, a0: Annotations, a: Annotations) {
    && a.typ == TextSeen(pairs, seen, "type", a0.typ)
    && a.title == TextSeen(pairs, seen, "title", a0.title)
    && a.description == TextSeen(pairs, seen, "description", a0.description)
    && a.deprecated == FlagSeen(pairs, seen, "deprecated", a0.deprecated)
    && a.allowEmptyValue == FlagSeen(pairs, seen, "allowEmptyValue", a0.allowEmptyValue)
    && a.nullable == FlagSeen(pairs, seen, "nullable", a0.nullable)
    && a.readOnly == FlagSeen(pairs, seen, "readOnly", a0.readOnly)
    && a.writeOnly == FlagSeen(pairs, seen, "writeOnly", a0.writeOnly)
  }

  /** `b` is `a` after the tag key `tag` with value `val`, `flag` being `val` read by `toBool`. */
  predicate AnnotatedBy(a: Annotations, tag: string, val: string, flag: bool, b: Annotations) {
    && b.typ == (if tag == "type" then val else a.typ)
    && b.title == (if tag == "title" then val else a.title)
    && b.description == (if tag == "description" then val else a.description)
    && b.deprecated == (if tag == "deprecated" then flag else a.deprecated)
    && b.allowEmptyValue == (if tag == "allowEmptyValue" then flag else a.allowEmptyValue)
    && b.nullable == (if tag == "nullable" then flag else a.nullable)
    && b.readOnly == (if tag == "readOnly" then flag else a.readOnly)
    && b.writeOnly == (if tag == "writeOnly" then flag else a.writeOnly)
  }

  /** One more visited key keeps the annotations in step with the visited keys. */
  lemma AnnotatedStep(pairs: map<string, string>, seen: set<string>, tag: string, a0: Annotations, a: Annotations, b: Annotations)
    requires tag in pairs
    requires Annotated(pairs, seen, a0, a)
    requires AnnotatedBy(a, tag, pairs[tag], ToBool(pairs[tag]), b)
    ensures Annotated(pairs, seen + {tag}, a0, b)
  {
    TextSeenStep(pairs, seen, tag, "type", a0.typ);
    TextSeenStep(pairs, seen, tag, "title", a0.title);
    TextSeenStep(pairs, seen, tag, "description", a0.description);
    FlagSeenStep(pairs, seen, tag, "deprecated", a0.deprecated);
    FlagSeenStep(pairs, seen, tag, "allowEmptyValue", a0.allowEmptyValue);
    FlagSeenStep(pairs, seen, tag, "nullable", a0.nullable);
    FlagSeenStep(pairs, seen, tag, "readOnly", a0.readOnly);
    FlagSeenStep(pairs, seen, tag, "writeOnly", a0.writeOnly);
  }

  /**
   * `resolveGeneric`: `title`, `description` and `type` are copied verbatim
   * and the five flags read with `toBool`; every other keyword is left as it
   * was. The tag's keys are visited in no particular order, as Go ranges
   * over a map; each key names one keyword, so the order does not matter.
   */
  method ResolveGeneric(r: FieldResolver, s: SchemaDoc) returns (t: SchemaDoc)
    ensures t.strings == s.strings && t.arrays == s.arrays && t.examples == s.examples
    ensures t.annotations == Annotations(
      typ := TextOr(r.tagPairs, "type", s.annotations.typ),
      title := TextOr(r.tagPairs, "title", s.annotations.title),
      description := TextOr(r.tagPairs, "description", s.annotations.description),
      deprecated := FlagOr(r.tagPairs, "deprecated", s.annotations.deprecated),
      allowEmptyValue := FlagOr(r.tagPairs, "allowEmptyValue", s.annotations.allowEmptyValue),
      nullable := FlagOr(r.tagPairs, "nullable", s.annotations.nullable),
      readOnly := FlagOr(r.tagPairs, "readOnly", s.annotations.readOnly),
      writeOnly := FlagOr(r.tagPairs, "writeOnly", s.annotations.writeOnly))
  {
    var pairs := r.tagPairs;
    var a0 := s.annotations;
    var a := a0;
    var unseen := pairs.Keys;
    ghost var seen: set<string> := {};
    while unseen != {}
      invariant seen + unseen == pairs.Keys
      invariant Annotated(pairs, seen, a0, a)
    {
      var tag :| tag in unseen;
      var b := AnnotateTag(a, tag, pairs[tag], ToBool(pairs[tag]));
      AnnotatedStep(pairs, seen, tag, a0, a, b);
      a := b;
      seen, unseen := seen + {tag}, unseen - {tag};
    }
    t := s.(annotations := a);
  }

  /** One turn of `resolveGeneric`'s loop: the keyword the tag key names takes the tag's value, `flag` being that value read by `toBool`. */
  method AnnotateTag(a: Annotations, tag: string, val: string, flag: bool) returns (b: Annotations)
    ensures AnnotatedBy(a, tag, val, flag, b)
  {
    b := a;
    if tag == "title" {
      b := b.(title := val);
    } else if tag == "description" {
      b := b.(description := val);
    } else if tag == "type" {
      b := b.(typ := val);
    } else if tag == "deprecated" {
      b := b.(deprecated := flag);
    } else if tag == "allowEmptyValue" {
      b := b.(allowEmptyValue := flag);
    } else if tag == "nullable" {
      b := b.(nullable := flag);
    } else if tag == "writeOnly" {
      b := b.(writeOnly := flag);
    } else if tag == "readOnly" {
      b := b.(readOnly := flag);
    }
  }

  /** The seven `format` values `resolveString` accepts. */
  predicate KnownStringFormat(format: string) {
    format in {"date-time", "date", "email", "hostname", "ipv4", "ipv6", "uri"}
  }

  /** Each piece as a string keyword value. */
  function Strs(pieces: seq<string>): (r: seq<Any>)
    ensures |r| == |pieces|
    ensures forall i :: 0 <= i < |pieces| ==> r[i] == Str(pieces[i])
  {
    seq(|pieces|, i requires 0 <= i < |pieces| => Str(pieces[i]))
  }

  /** The loop that appends the comma-separated `enum` items one by one. */
  method AppendEnum(enum: seq<Any>, val: string) returns (r: seq<Any>)
    ensures r == enum + Strs(Split(val, ","))
  {
    var items := Split(val, ",");
    r := enum;
    for i := 0 to |items|
      invariant r == enum + Strs(items[..i])
    {
      r := r + [Str(items[i])];
    }
    assert items[..|items|] == items;
  }

  /** The format the tag sets when it is a known one, counting only the keys `seen`. */
  function FormatSeen(pairs: map<string, string>, seen: set<string>, current: string): string {
    if "format" in seen && "format" in pairs && KnownStringFormat(pairs["format"]) then pairs["format"] else current
  }

  /** The `enum` after the string items of the tag, counting only the keys `seen`. */
  function StringEnumSeen(pairs: map<string, string>, seen: set<string>, current: seq<Any>): seq<Any> {
    if "enum" in seen && "enum" in pairs then current + Strs(Split(pairs["enum"], ",")) else current
  }

  /** `default` or `example` as a string value, counting only the keys `seen`. */
  function StrSeen(pairs: map<string, string>, seen: set<string>, key: string, current: Any): Any {
    if key in seen && key in pairs then Str(pairs[key]) else current
  }

  /** The string keywords after visiting the keys `seen`, starting from `b0` and `e0`. */
  predicate StringResolved(pairs: map<string, string>, seen: set<string>, b0: StringBounds, e0: Examples, b: StringBounds, e: Examples) {
    && b.minLength == BoundSeen(pairs, seen, "minLength", b0.minLength)
    && b.maxLength == LimitSeen(pairs, seen, "maxLength", b0.maxLength)
    && b.pattern == TextSeen(pairs, seen, "pattern", b0.pattern)
    && b.format == FormatSeen(pairs, seen, b0.format)
    && e.enum == StringEnumSeen(pairs, seen, e0.enum)
    && e.defaultValue == StrSeen(pairs, seen, "default", e0.defaultValue)
    && e.example == StrSeen(pairs, seen, "example", e0.example)
  }

  /** `b'` and `e'` are `b` and `e` after the tag key `tag` with value `val`. */
  predicate StringResolvedBy(b: StringBounds, e: Examples, tag: string, val: string, b': StringBounds, e': Examples) {
    && b'.minLength == (if tag == "minLength" then ToUint(val) else b.minLength)
    && b'.maxLength == (if tag == "maxLength" then Some(ToUint(val)) else b.maxLength)
    && b'.pattern == (if tag == "pattern" then val else b.pattern)
    && b'.format == (if tag == "format" && KnownStringFormat(val) then val else b.format)
    && e'.enum == (if tag == "enum" then e.enum + Strs(Split(val, ",")) else e.enum)
    && e'.defaultValue == (if tag == "default" then Str(val) else e.defaultValue)
    && e'.example == (if tag == "example" then Str(val) else e.example)
  }

  /** One more visited key keeps the string keywords in step with the visited keys. */
  lemma StringResolvedStep(pairs: map<string, string>, seen: set<string>, tag: string,
                           b0: StringBounds, e0: Examples, b: StringBounds, e: Examples, b': StringBounds, e': Examples)
    requires tag in pairs && tag !in seen
    requires StringResolved(pairs, seen, b0, e0, b, e)
    requires StringResolvedBy(b, e, tag, pairs[tag], b', e')
    ensures StringResolved(pairs, seen + {tag}, b0, e0, b', e')
  {
    BoundSeenStep(pairs, seen, tag, "minLength", b0.minLength);
    LimitSeenStep(pairs, seen, tag, "maxLength", b0.maxLength);
    TextSeenStep(pairs, seen, tag, "pattern", b0.pattern);
  }

  /**
   * `resolveString`: the length bounds through `toUint`, `pattern` verbatim,
   * `format` only when it is one of the seven known formats, the `enum` items
   * split on `,` appended in order, and `default`/`example` as strings.
   */
  method ResolveString(r: FieldResolver, s: SchemaDoc) returns (t: SchemaDoc)
    ensures t.annotations == s.annotations && t.arrays == s.arrays
    ensures t.strings == StringBounds(
      minLength := BoundOr(r.tagPairs, "minLength", s.strings.minLength),
      maxLength := LimitOr(r.tagPairs, "maxLength", s.strings.maxLength),
      pattern := TextOr(r.tagPairs, "pattern", s.strings.pattern),
      format := FormatSeen(r.tagPairs, r.tagPairs.Keys, s.strings.format))
    ensures t.examples == Examples(
      enum := StringEnumSeen(r.tagPairs, r.tagPairs.Keys, s.examples.enum),
      defaultValue := StrSeen(r.tagPairs, r.tagPairs.Keys, "default", s.examples.defaultValue),
      example := StrSeen(r.tagPairs, r.tagPairs.Keys, "example", s.examples.example))
  {
    var pairs := r.tagPairs;
    var b0, e0 := s.strings, s.examples;
    var b, e := b0, e0;
    var unseen := pairs.Keys;
    ghost var seen: set<string> := {};
    while unseen != {}
      invariant seen + unseen == pairs.Keys && seen !! unseen
      invariant StringResolved(pairs, seen, b0, e0, b, e)
    {
      var tag :| tag in unseen;
      var b', e' := StringTag(b, e, tag, pairs[tag]);
      StringResolvedStep(pairs, seen, tag, b0, e0, b, e, b', e');
      b, e := b', e';
      seen, unseen := seen + {tag}, unseen - {tag};
    }
    t := s.(strings := b, examples := e);
  }

  /** One turn of `resolveString`'s loop. */
  method StringTag(b: StringBounds, e: Examples, tag: string, val: string) returns (b': StringBounds, e': Examples)
    ensures StringResolvedBy(b, e, tag, val, b', e')
  {
    b', e' := b, e;
    if tag == "minLength" {
      b' := b'.(minLength := ToUint(val));
    } else if tag == "maxLength" {
      b' := b'.(maxLength := Some(ToUint(val)));
    } else if tag == "pattern" {
      b' := b'.(pattern := val);
    } else if tag == "format" {
      if KnownStringFormat(val) {
        b' := b'.(format := val);
      }
    } else if tag == "enum" {
      var enum := AppendEnum(e'.enum, val);
      e' := e'.(enum := enum);
    } else if tag == "default" {
      e' := e'.(defaultValue := Str(val));
    } else if tag == "example" {
      e' := e'.(example := Str(val));
    }
  }

  /** Each number as an integer keyword value. */
  function Ints(xs: seq<int>): (r: seq<Any>)
    ensures |r| == |xs|
    ensures forall i :: 0 <= i < |xs| ==> r[i] == Int(xs[i])
  {
    seq(|xs|, i requires 0 <= i < |xs| => Int(xs[i]))
  }

  function Floats(xs: seq<real>): (r: seq<Any>)
    ensures |r| == |xs|
    ensures forall i :: 0 <= i < |xs| ==> r[i] == Float(xs[i])
  {
    seq(|xs|, i requires 0 <= i < |xs| => Float(xs[i]))
  }

  /**
   * The list `resolveArray` parses from a `default`, `enum` or `example`
   * value by the item type: space-separated strings, integers or numbers, and
   * the nil interface for any other item type. `parseFloatSlice` is the
   * floating-point parser, left abstract.
   */
  function ArrayItems(itemsType: string, val: string, parseFloatSlice: string -> seq<real>): Any {
    if itemsType == "string" then Slice(Strs(Split(val, " ")))
    else if itemsType == "integer" then Slice(Ints(NumbersOf(Split(val, " "))))
    else if itemsType == "number" then Slice(Floats(parseFloatSlice(val)))
    else Nil
  }

  /** The keys for which `resolveArray` reads the `items` schema's type, which must then exist. */
  predicate NeedsItems(tag: string) {
    tag == "default" || tag == "enum" || tag == "example"
  }

  /** `resolveArray` would dereference a nil `items` schema otherwise. */
  predicate ItemsTyped(pairs: map<string, string>, itemsType: Option<string>) {
    ("default" in pairs || "enum" in pairs || "example" in pairs) ==> itemsType.Some?
  }

  /** A value keyword set to the list parsed from the tag, counting only the keys `seen`. */
  function ItemsSeen(pairs: map<string, string>, seen: set<string>, key: string, itemsType: Option<string>, current: Any, parseFloatSlice: string -> seq<real>): Any
    requires key in pairs ==> itemsType.Some?
  {
    if key in seen && key in pairs then ArrayItems(itemsType.value, pairs[key], parseFloatSlice) else current
  }

  /** The `enum` set to one list wrapping the parsed list, counting only the keys `seen`. */
  function ArrayEnumSeen(pairs: map<string, string>, seen: set<string>, itemsType: Option<string>, current: seq<Any>, parseFloatSlice: string -> seq<real>): seq<Any>
    requires "enum" in pairs ==> itemsType.Some?
  {
    if "enum" in seen && "enum" in pairs then [ArrayItems(itemsType.value, pairs["enum"], parseFloatSlice)] else current
  }

  /** The array keywords after visiting the keys `seen`, starting from `b0` and `e0`. */
  predicate ArrayResolved(pairs: map<string, string>, seen: set<string>, b0: ArrayBounds, e0: Examples, b: ArrayBounds, e: Examples, parseFloatSlice: string -> seq<real>)
    requires ItemsTyped(pairs, b0.itemsType)
  {
    && b.itemsType == b0.itemsType
    && b.minItems == BoundSeen(pairs, seen, "minItems", b0.minItems)
    && b.maxItems == LimitSeen(pairs, seen, "maxItems", b0.maxItems)
    && b.uniqueItems == FlagSeen(pairs, seen, "uniqueItems", b0.uniqueItems)
    && e.enum == ArrayEnumSeen(pairs, seen, b0.itemsType, e0.enum, parseFloatSlice)
    && e.defaultValue == ItemsSeen(pairs, seen, "default", b0.itemsType, e0.defaultValue, parseFloatSlice)
    && e.example == ItemsSeen(pairs, seen, "example", b0.itemsType, e0.example, parseFloatSlice)
  }

  /** `b'` and `e'` are `b` and `e` after the tag key `tag` with value `val`. */
  predicate ArrayResolvedBy(b: ArrayBounds, e: Examples, tag: string, val: string, b': ArrayBounds, e': Examples, parseFloatSlice: string -> seq<real>)
    requires NeedsItems(tag) ==> b.itemsType.Some?
  {
    && b'.itemsType == b.itemsType
    && b'.minItems == (if tag == "minItems" then ToUint(val) else b.minItems)
    && b'.maxItems == (if tag == "maxItems" then Some(ToUint(val)) else b.maxItems)
    && b'.uniqueItems == (if tag == "uniqueItems" then ToBool(val) else b.uniqueItems)
    && e'.enum == (if tag == "enum" then [ArrayItems(b.itemsType.value, val, parseFloatSlice)] else e.enum)
    && e'.defaultValue == (if tag == "default" then ArrayItems(b.itemsType.value, val, parseFloatSlice) else e.defaultValue)
    && e'.example == (if tag == "example" then ArrayItems(b.itemsType.value, val, parseFloatSlice) else e.example)
  }

  /** One more visited key keeps the array keywords in step with the visited keys. */
  lemma ArrayResolvedStep(pairs: map<string, string>, seen: set<string>, tag: string,
                          b0: ArrayBounds, e0: Examples, b: ArrayBounds, e: Examples, b': ArrayBounds, e': Examples,
                          parseFloatSlice: string -> seq<real>)
    requires ItemsTyped(pairs, b0.itemsType)
    requires tag in pairs
    requires ArrayResolved(pairs, seen, b0, e0, b, e, parseFloatSlice)
    requires ArrayResolvedBy(b, e, tag, pairs[tag], b', e', parseFloatSlice)
    ensures ArrayResolved(pairs, seen + {tag}, b0, e0, b', e', parseFloatSlice)
  {
    BoundSeenStep(pairs, seen, tag, "minItems", b0.minItems);
    LimitSeenStep(pairs, seen, tag, "maxItems", b0.maxItems);
    FlagSeenStep(pairs, seen, tag, "uniqueItems", b0.uniqueItems);
  }

  /**
   * `resolveArray`: the item-count bounds through `toUint`, `uniqueItems`
   * through `toBool`, `default` and `example` set to the parsed list, and
   * `enum` set to a one-element list that wraps the parsed list.
   */
  method ResolveArray(r: FieldResolver, s: SchemaDoc, parseFloatSlice: string -> seq<real>) returns (t: SchemaDoc)
    requires ItemsTyped(r.tagPairs, s.arrays.itemsType)
    ensures t.annotations == s.annotations && t.strings == s.strings
    ensures t.arrays == s.arrays.(
      minItems := BoundOr(r.tagPairs, "minItems", s.arrays.minItems),
      maxItems := LimitOr(r.tagPairs, "maxItems", s.arrays.maxItems),
      uniqueItems := FlagOr(r.tagPairs, "uniqueItems", s.arrays.uniqueItems))
    ensures t.examples == Examples(
      enum := ArrayEnumSeen(r.tagPairs, r.tagPairs.Keys, s.arrays.itemsType, s.examples.enum, parseFloatSlice),
      defaultValue := ItemsSeen(r.tagPairs, r.tagPairs.Keys, "default", s.arrays.itemsType, s.examples.defaultValue, parseFloatSlice),
      example := ItemsSeen(r.tagPairs, r.tagPairs.Keys, "example", s.arrays.itemsType, s.examples.example, parseFloatSlice))
  {
    var pairs := r.tagPairs;
    var b0, e0 := s.arrays, s.examples;
    var b, e := b0, e0;
    var unseen := pairs.Keys;
    ghost var seen: set<string> := {};
    while unseen != {}
      invariant seen + unseen == pairs.Keys
      invariant ArrayResolved(pairs, seen, b0, e0, b, e, parseFloatSlice)
    {
      var tag :| tag in unseen;
      var b', e' := ArrayTag(b, e, tag, pairs[tag], parseFloatSlice);
      ArrayResolvedStep(pairs, seen, tag, b0, e0, b, e, b', e', parseFloatSlice);
      b, e := b', e';
      seen, unseen := seen + {tag}, unseen - {tag};
    }
    t := s.(arrays := b, examples := e);
  }

  /** One turn of `resolveArray`'s loop. */
  method ArrayTag(b: ArrayBounds, e: Examples, tag: string, val: string, parseFloatSlice: string -> seq<real>) returns (b': ArrayBounds, e': Examples)
    requires NeedsItems(tag) ==> b.itemsType.Some?
    ensures ArrayResolvedBy(b, e, tag, val, b', e', parseFloatSlice)
  {
    b', e' := b, e;
    if tag == "minItems" {
      b' := b'.(minItems := ToUint(val));
    } else if tag == "maxItems" {
      b' := b'.(maxItems := Some(ToUint(val)));
    } else if tag == "uniqueItems" {
      b' := b'.(uniqueItems := ToBool(val));
    } else if NeedsItems(tag) {
      var items := ParseItems(b.itemsType.value, val, parseFloatSlice);
      if tag == "default" {
        e' := e'.(defaultValue := items);
      } else if tag == "example" {
        e' := e'.(example := items);
      } else {
        e' := e'.(enum := [items]);
      }
    }
  }

  /** The `switch schema.Items.Value.Type` of `resolveArray`. */
  method ParseItems(itemsType: string, val: string, parseFloatSlice: string -> seq<real>) returns (items: Any)
    ensures items == ArrayItems(itemsType, val, parseFloatSlice)
  {
    items := Nil;
    if itemsType == "string" {
      var ss := ParseStringSlice(val);
      items := Slice(Strs(ss));
    } else if itemsType == "integer" {
      var xs := ParseIntSlice(val);
      items := Slice(Ints(xs));
    } else if itemsType == "number" {
      items := Slice(Floats(parseFloatSlice(val)));
    }
  }

  /** An `enum` of strings is appended item by item, so `a,b` on a schema with no enum gives exactly `a` then `b`. */
  lemma StringEnumItems(val: string)
    ensures |Strs(Split(val, ","))| == Count(val, ',') + 1
    ensures forall i :: 0 <= i < |Split(val, ",")| ==> Strs(Split(val, ","))[i] == Str(Split(val, ",")[i])
  {
    SplitCharCount(val, ',');
  }
}
